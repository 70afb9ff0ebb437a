/** Concurrent requests in the two retry loops, step by step, over shared connection counters. */
module RequestTracking {
  import opened Bytes

  /** Which loop a request is in: `HandleMessages`, or `handlePassthroughProvider`. They mark the failed account
      at different moments. */
  datatype Loop = Messages | Passthrough

  /** What follows a release. */
  datatype After = ThenSelect(category: Bytes) | ThenDone

  datatype Pc =
    | Acquiring(first: bool)
    | Ready
    | Delaying
    | Releasing(after: After, loaded: Option<int>)
    | Selecting(category: Bytes)
    | Exiting
    | Done

  /** A request: `account` None is the default client; `tracked` is zero when no connection is held. `uses`
      and `outcomes` record the account and the outcome of every send. */
  datatype Request = Request(
    loop: Loop, pc: Pc, account: Option<int>, tracked: int, failed: seq<int>, retries: int, sends: nat, uses: seq<Option<int>>,
    outcomes: seq<Outcome>)

  /** `clamped` counts how often a release found nothing to release. */
  datatype State = State(counters: map<int, int>, requests: map<int, Request>, clamped: nat)

  datatype Outcome = Ended | TryAgain(switch: bool, category: Bytes)

  /** A step of request `r`, with what its environment decides. */
  datatype Step =
    | Begin(r: int, loop: Loop, account: Option<int>)
    | Acquire(r: int)
    | Send(r: int, outcome: Outcome)
    | Load(r: int)
    | Swap(r: int)
    | Select(r: int, chosen: Option<Option<int>>)
    | Delay(r: int, cut: bool)
    | Exit(r: int)

  function Count(s: State, id: int): int { if id in s.counters then s.counters[id] else 0 }

  /** `shouldRetryCurrentAccountWhenNoAlternative`. */
  predicate RetriesCurrent(category: Bytes) {
    var c := TrimSpace(category);
    c == "network" || c == "timeout" || c == "server" || c == "model_unavailable" || c == "unknown"
  }

  function Mark(failed: seq<int>, id: int): seq<int> { if id in failed then failed else failed + [id] }

  /** The request with its account marked as failed. */
  function Failed(q: Request): Request {
    if q.account.Some? then q.(failed := Mark(q.failed, q.account.value)) else q
  }

  /** Where a request goes once its connection is released. */
  function Released(q: Request, after: After): Request {
    match after
    case ThenDone => q.(tracked := 0, pc := Done)
    case ThenSelect(c) =>
      var t := q.(tracked := 0, pc := Selecting(c));
      if q.loop.Passthrough? then Failed(t) else t
  }

  /** After a retryable failure: the next try, or the account switch. */
  function Again(q: Request, switch: bool, category: Bytes): Request {
    if switch && q.account.Some? then
      var t := if q.loop.Messages? then Failed(q) else q;
      if q.tracked != 0 then t.(pc := Releasing(ThenSelect(category), None)) else Released(t, ThenSelect(category))
    else q.(pc := Delaying)
  }

  function Sent(q: Request, outcome: Outcome): Request {
    var t := q.(sends := q.sends + 1, uses := q.uses + [q.account], outcomes := q.outcomes + [outcome]);
    match outcome
    case Ended => t.(pc := Exiting)
    case TryAgain(switch, category) =>
      if q.retries <= 0 then t.(pc := Exiting) else Again(t.(retries := q.retries - 1), switch, category)
  }

  /** What account selection found: an account not marked as failed, the default client, or nothing. */
  function Chosen(q: Request, category: Bytes, chosen: Option<Option<int>>): Request {
    match chosen
    case Some(a) => q.(account := a, pc := Acquiring(false))
    case None => if RetriesCurrent(category) then q.(pc := Acquiring(false)) else q.(pc := Exiting)
  }

  function Put(s: State, r: int, q: Request): State { s.(requests := s.requests[r := q]) }

  /** `acquireTrackedAccount`: an atomic increment, except for no account or id zero. */
  function Acquired(s: State, r: int, q: Request, first: bool): State {
    var t := q.(pc := if first then Ready else Delaying);
    if q.account.None? || q.account.value == 0 then Put(s, r, t.(tracked := 0))
    else Put(s.(counters := s.counters[q.account.value := Count(s, q.account.value) + 1]), r, t.(tracked := q.account.value))
  }

  predicate RequestEnabled(q: Request, step: Step) {
    match step
    case Begin(_, _, _) => false
    case Acquire(_) => q.pc.Acquiring?
    case Send(_, _) => q.pc.Ready?
    case Load(_) => q.pc.Releasing? && q.pc.loaded.None?
    case Swap(_) => q.pc.Releasing? && q.pc.loaded.Some?
    case Select(_, chosen) => q.pc.Selecting? && (chosen.Some? && chosen.value.Some? ==> chosen.value.value !in q.failed)
    case Delay(_, _) => q.pc.Delaying?
    case Exit(_) => q.pc.Exiting?
  }

  /** Whether the step can happen. Account selection never returns an excluded account: LoadBalancer.SelectionIsEnabled. */
  predicate Enabled(s: State, step: Step) {
    if step.Begin? then step.r !in s.requests else step.r in s.requests && RequestEnabled(s.requests[step.r], step)
  }

  function Next(maxRetries: nat, s: State, step: Step): State
    requires Enabled(s, step)
  {
    if step.Begin? then Put(s, step.r, Request(step.loop, Acquiring(true), step.account, 0, [], maxRetries, 0, [], []))
    else
      var r, q := step.r, s.requests[step.r];
      match step
      case Acquire(_) => Acquired(s, r, q, q.pc.first)
      case Send(_, outcome) => Put(s, r, Sent(q, outcome))
      case Load(_) =>
        if Count(s, q.tracked) <= 0 then Put(s, r, Released(q, q.pc.after)).(clamped := s.clamped + 1)
        else Put(s, r, q.(pc := Releasing(q.pc.after, Some(Count(s, q.tracked)))))
      case Swap(_) =>
        if Count(s, q.tracked) == q.pc.loaded.value then
          Put(s, r, Released(q, q.pc.after)).(counters := s.counters[q.tracked := q.pc.loaded.value - 1])
        else Put(s, r, q.(pc := Releasing(q.pc.after, None)))
      case Select(_, chosen) => Put(s, r, Chosen(q, q.pc.category, chosen))
      case Delay(_, cut) => Put(s, r, q.(pc := if cut then Exiting else Ready))
      case Exit(_) => Put(s, r, if q.tracked != 0 then q.(pc := Releasing(ThenDone, None)) else q.(pc := Done))
      case Begin(_, _, _) => s
  }

  // ------------------------------------------------------------------------------- counting

  /** The requests that track an account. */
  function Trackers(requests: map<int, Request>, id: int): set<int> {
    set r | r in requests && requests[r].tracked == id
  }

  lemma TrackersPut(requests: map<int, Request>, r: int, q: Request, id: int)
    ensures Trackers(requests[r := q], id) == (if q.tracked == id then Trackers(requests, id) + {r} else Trackers(requests, id) - {r})
  {
  }

  /** Each counter is the number of requests that track its account. */
  ghost predicate Counted(s: State) {
    forall id :: id != 0 ==> Count(s, id) == |Trackers(s.requests, id)|
  }

  lemma SameTracked(s: State, r: int, q: Request)
    requires Counted(s) && q.tracked == (if r in s.requests then s.requests[r].tracked else 0)
    ensures Counted(Put(s, r, q))
  {
    forall id | id != 0 ensures Count(Put(s, r, q), id) == |Trackers(s.requests[r := q], id)| {
      TrackersPut(s.requests, r, q, id);
      assert Trackers(s.requests[r := q], id) == Trackers(s.requests, id);
    }
  }

  lemma OneMore(s: State, r: int, q: Request, id: int)
    requires Counted(s) && r in s.requests && s.requests[r].tracked == 0 && id != 0 && q.tracked == id
    ensures Counted(Put(s, r, q).(counters := s.counters[id := Count(s, id) + 1]))
  {
    var t := Put(s, r, q).(counters := s.counters[id := Count(s, id) + 1]);
    forall i | i != 0 ensures Count(t, i) == |Trackers(t.requests, i)| {
      TrackersPut(s.requests, r, q, i);
      if i != id { assert Trackers(t.requests, i) == Trackers(s.requests, i); }
    }
  }

  lemma OneLess(s: State, r: int, q: Request, id: int)
    requires Counted(s) && r in s.requests && s.requests[r].tracked == id && id != 0 && q.tracked == 0
    ensures Count(s, id) > 0
    ensures Counted(Put(s, r, q).(counters := s.counters[id := Count(s, id) - 1]))
  {
    var t := Put(s, r, q).(counters := s.counters[id := Count(s, id) - 1]);
    assert r in Trackers(s.requests, id);
    forall i | i != 0 ensures Count(t, i) == |Trackers(t.requests, i)| {
      TrackersPut(s.requests, r, q, i);
      if i != id { assert Trackers(t.requests, i) == Trackers(s.requests, i); }
    }
  }

  // ----------------------------------------------------------------------------- one request

  /** No account is used again once it was left. */
  predicate Contiguous(uses: seq<Option<int>>) {
    forall i, j, k :: 0 <= i < j < k < |uses| && uses[i] == uses[k] ==> uses[j] == uses[i]
  }

  /** Every use is of the current account, which was used last, or of an account marked as failed. */
  predicate UsesSound(q: Request) {
    && Contiguous(q.uses)
    && (q.account in q.uses ==> q.uses[|q.uses| - 1] == q.account)
    && (forall u :: u in q.uses && u != q.account ==> u.Some? && u.value in q.failed)
  }

  /** The sends left never exceed the retries left. */
  predicate Budget(maxRetries: nat, q: Request) {
    && q.retries >= 0 && q.sends == |q.uses|
    && (if q.pc.Exiting? || q.pc.Done? || (q.pc.Releasing? && q.pc.after.ThenDone?) then q.sends + q.retries <= maxRetries + 1
        else q.sends + q.retries == maxRetries)
  }

  /** A connection is held exactly while there is one to release. */
  predicate HeldSound(q: Request) {
    match q.pc
    case Acquiring(_) => q.tracked == 0
    case Selecting(_) => q.tracked == 0
    case Done => q.tracked == 0
    case Releasing(after, loaded) => q.tracked != 0 && (loaded.Some? ==> loaded.value > 0)
    case _ => true
  }

  /** While an account is being replaced it is marked, or will be when its connection is released. */
  predicate SwitchSound(q: Request) {
    match q.pc
    case Selecting(_) => q.account.Some? && q.account.value in q.failed
    case Releasing(after, _) => after.ThenSelect? ==> q.account.Some? && (q.loop.Messages? ==> q.account.value in q.failed)
    case _ => true
  }

  /** After an outcome on one account the next send may be on the other: the send before has failed retryably; the account
      stays unless a switch is called for, and then it stays only when the failure is one that the same account may get
      over. */
  predicate Follows(o: Outcome, u: Option<int>, v: Option<int>) {
    && o.TryAgain?
    && (!o.switch || u.None? ==> v == u)
    && (o.switch && u.Some? && v == u ==> TrimSpace(o.category) in {"network", "timeout", "server", "model_unavailable", "unknown"})
  }

  /** Every send follows from the one before. */
  predicate FollowsAll(uses: seq<Option<int>>, outcomes: seq<Outcome>) {
    |outcomes| == |uses| && forall i :: 0 <= i < |uses| - 1 ==> Follows(outcomes[i], uses[i], uses[i + 1])
  }

  /** The last outcome calls for the switch that is under way. */
  predicate Switching(q: Request, category: Bytes) {
    && q.uses != [] && |q.outcomes| == |q.uses| && q.account.Some? && q.uses[|q.uses| - 1] == q.account
    && q.outcomes[|q.uses| - 1] == TryAgain(true, category)
  }

  predicate FollowSound(q: Request) {
    && FollowsAll(q.uses, q.outcomes)
    && match q.pc
       case Selecting(c) => Switching(q, c)
       case Releasing(after, _) => after.ThenSelect? ==> Switching(q, after.category)
       case Exiting => true
       case Done => true
       case _ => q.uses != [] ==> Follows(q.outcomes[|q.uses| - 1], q.uses[|q.uses| - 1], q.account)
  }

  predicate Sound(maxRetries: nat, q: Request) {
    UsesSound(q) && Budget(maxRetries, q) && HeldSound(q) && SwitchSound(q) && FollowSound(q)
  }

  ghost predicate Inv(maxRetries: nat, s: State) {
    Counted(s) && s.clamped == 0 && forall r :: r in s.requests ==> Sound(maxRetries, s.requests[r])
  }

  lemma ContiguousMore(uses: seq<Option<int>>, a: Option<int>)
    requires Contiguous(uses) && (a in uses ==> uses[|uses| - 1] == a)
    ensures Contiguous(uses + [a])
  {
    var all := uses + [a];
    forall i, j, k | 0 <= i < j < k < |all| && all[i] == all[k] ensures all[j] == all[i] {
      if k == |uses| && j < |uses| - 1 { assert uses[i] == uses[|uses| - 1]; }
    }
  }

  lemma UsedSound(q: Request)
    requires UsesSound(q)
    ensures UsesSound(q.(uses := q.uses + [q.account]))
  {
    ContiguousMore(q.uses, q.account);
    var uses := q.uses + [q.account];
    assert uses[|q.uses|] == q.account;
    assert forall u :: u in uses && u != q.account ==> u in q.uses;
  }

  /** A request after its send is counted. */
  lemma AgainSound(maxRetries: nat, q: Request, switch: bool, category: Bytes)
    requires UsesSound(q) && q.retries >= 0 && q.sends == |q.uses| && q.sends + q.retries == maxRetries && q.pc.Ready?
    requires FollowsAll(q.uses, q.outcomes) && q.uses != [] && q.uses[|q.uses| - 1] == q.account
    requires q.outcomes[|q.uses| - 1] == TryAgain(switch, category)
    ensures Sound(maxRetries, Again(q, switch, category)) && Again(q, switch, category).tracked == q.tracked
  {
  }

  lemma FollowsMore(uses: seq<Option<int>>, outcomes: seq<Outcome>, a: Option<int>, o: Outcome)
    requires FollowsAll(uses, outcomes) && (uses != [] ==> Follows(outcomes[|uses| - 1], uses[|uses| - 1], a))
    ensures FollowsAll(uses + [a], outcomes + [o])
  {
    var u, v := uses + [a], outcomes + [o];
    forall i | 0 <= i < |u| - 1 ensures Follows(v[i], u[i], u[i + 1]) {
      assert u[i] == uses[i] && v[i] == outcomes[i];
    }
  }

  lemma SendSound(maxRetries: nat, q: Request, outcome: Outcome)
    requires Sound(maxRetries, q) && q.pc.Ready?
    ensures Sound(maxRetries, Sent(q, outcome)) && Sent(q, outcome).tracked == q.tracked
  {
    UsedSound(q);
    var t := q.(sends := q.sends + 1, uses := q.uses + [q.account], outcomes := q.outcomes + [outcome]);
    FollowsMore(q.uses, q.outcomes, q.account, outcome);
    if outcome.TryAgain? && q.retries > 0 {
      AgainSound(maxRetries, t.(retries := q.retries - 1), outcome.switch, outcome.category);
    }
  }

  lemma ReleasedSound(maxRetries: nat, q: Request)
    requires Sound(maxRetries, q) && q.pc.Releasing?
    ensures Sound(maxRetries, Released(q, q.pc.after)) && Released(q, q.pc.after).tracked == 0
  {
  }

  lemma ChosenSound(maxRetries: nat, q: Request, chosen: Option<Option<int>>)
    requires Sound(maxRetries, q) && q.pc.Selecting?
    requires chosen.Some? && chosen.value.Some? ==> chosen.value.value !in q.failed
    ensures Sound(maxRetries, Chosen(q, q.pc.category, chosen)) && Chosen(q, q.pc.category, chosen).tracked == 0
  {
  }

  // -------------------------------------------------------------------------- all the steps

  /** A step that changes one request and leaves what it tracks. */
  lemma LocalStep(maxRetries: nat, s: State, r: int, q: Request)
    requires Inv(maxRetries, s) && q.tracked == (if r in s.requests then s.requests[r].tracked else 0) && Sound(maxRetries, q)
    ensures Inv(maxRetries, Put(s, r, q))
  {
    SameTracked(s, r, q);
  }

  lemma AcquiringSound(maxRetries: nat, q: Request, pc: Pc, tracked: int)
    requires Sound(maxRetries, q) && q.pc.Acquiring? && (pc.Ready? || pc.Delaying?)
    ensures Sound(maxRetries, q.(pc := pc, tracked := tracked))
  {
  }

  lemma AcquireKeeps(maxRetries: nat, s: State, r: int)
    requires Inv(maxRetries, s) && r in s.requests && s.requests[r].pc.Acquiring?
    ensures Inv(maxRetries, Acquired(s, r, s.requests[r], s.requests[r].pc.first))
  {
    var q := s.requests[r];
    var t := q.(pc := if q.pc.first then Ready else Delaying);
    AcquiringSound(maxRetries, q, t.pc, if q.account.None? then 0 else q.account.value);
    if q.account.None? || q.account.value == 0 { LocalStep(maxRetries, s, r, t.(tracked := 0)); }
    else { OneMore(s, r, t.(tracked := q.account.value), q.account.value); }
  }

  /** A release always finds something to release. */
  lemma LoadKeeps(maxRetries: nat, s: State, r: int)
    requires Inv(maxRetries, s) && Enabled(s, Load(r))
    ensures Count(s, s.requests[r].tracked) > 0 && Inv(maxRetries, Next(maxRetries, s, Load(r)))
  {
    var q := s.requests[r];
    OneLess(s, r, q.(tracked := 0), q.tracked);
    LocalStep(maxRetries, s, r, q.(pc := Releasing(q.pc.after, Some(Count(s, q.tracked)))));
  }

  lemma SwapKeeps(maxRetries: nat, s: State, r: int)
    requires Inv(maxRetries, s) && Enabled(s, Swap(r))
    ensures Inv(maxRetries, Next(maxRetries, s, Swap(r)))
  {
    var q := s.requests[r];
    if Count(s, q.tracked) == q.pc.loaded.value {
      ReleasedSound(maxRetries, q);
      OneLess(s, r, Released(q, q.pc.after), q.tracked);
    } else {
      LocalStep(maxRetries, s, r, q.(pc := Releasing(q.pc.after, None)));
    }
  }

  /** Every step of every request keeps the invariant. */
  lemma StepKeeps(maxRetries: nat, s: State, step: Step)
    requires Inv(maxRetries, s) && Enabled(s, step)
    ensures Inv(maxRetries, Next(maxRetries, s, step))
  {
    var r := step.r;
    match step {
      case Begin(_, loop, account) => LocalStep(maxRetries, s, r, Request(loop, Acquiring(true), account, 0, [], maxRetries, 0, [], []));
      case Acquire(_) => AcquireKeeps(maxRetries, s, r);
      case Send(_, outcome) =>
        SendSound(maxRetries, s.requests[r], outcome);
        LocalStep(maxRetries, s, r, Sent(s.requests[r], outcome));
      case Load(_) => LoadKeeps(maxRetries, s, r);
      case Swap(_) => SwapKeeps(maxRetries, s, r);
      case Select(_, chosen) =>
        ChosenSound(maxRetries, s.requests[r], chosen);
        LocalStep(maxRetries, s, r, Chosen(s.requests[r], s.requests[r].pc.category, chosen));
      case Delay(_, _) => LocalStep(maxRetries, s, r, Next(maxRetries, s, step).requests[r]);
      case Exit(_) => LocalStep(maxRetries, s, r, Next(maxRetries, s, step).requests[r]);
    }
  }

  const START := State(map[], map[], 0)

  /** A run: every step is enabled when it happens. */
  predicate IsRun(maxRetries: nat, s: State, steps: seq<Step>)
    decreases |steps|
  {
    steps == [] || (Enabled(s, steps[0]) && IsRun(maxRetries, Next(maxRetries, s, steps[0]), steps[1..]))
  }

  function Reached(maxRetries: nat, s: State, steps: seq<Step>): State
    requires IsRun(maxRetries, s, steps)
    decreases |steps|
  {
    if steps == [] then s else Reached(maxRetries, Next(maxRetries, s, steps[0]), steps[1..])
  }

  lemma {:induction false} RunKeeps(maxRetries: nat, s: State, steps: seq<Step>)
    requires Inv(maxRetries, s) && IsRun(maxRetries, s, steps)
    ensures Inv(maxRetries, Reached(maxRetries, s, steps))
    decreases |steps|
  {
    if steps != [] {
      StepKeeps(maxRetries, s, steps[0]);
      RunKeeps(maxRetries, Next(maxRetries, s, steps[0]), steps[1..]);
    }
  }

  /** Under any interleaving of any requests: each counter is the number of requests tracking its account, the
      clamp never fires, a finished request tracks nothing, no request sends more than maxRetries + 1 times,
      none goes back to an account it has left, and each send is on the account that the outcome of the one before
      calls for. */
  lemma AnyInterleaving(maxRetries: nat, steps: seq<Step>)
    requires IsRun(maxRetries, START, steps)
    ensures var s := Reached(maxRetries, START, steps);
      && (forall id :: id != 0 ==> Count(s, id) == |Trackers(s.requests, id)|)
      && s.clamped == 0
      && (forall r :: r in s.requests ==>
           && (s.requests[r].pc.Done? ==> s.requests[r].tracked == 0)
           && s.requests[r].sends <= maxRetries + 1
           && Contiguous(s.requests[r].uses)
           && |s.requests[r].uses| == s.requests[r].sends && FollowsAll(s.requests[r].uses, s.requests[r].outcomes))
  {
    assert Counted(START) by { assert forall id :: Trackers(START.requests, id) == {}; }
    RunKeeps(maxRetries, START, steps);
  }

  /** When every request is done every counter is back to zero. */
  lemma AllReleased(maxRetries: nat, steps: seq<Step>, id: int)
    requires IsRun(maxRetries, START, steps) && id != 0
    requires forall r :: r in Reached(maxRetries, START, steps).requests ==> Reached(maxRetries, START, steps).requests[r].pc.Done?
    ensures Count(Reached(maxRetries, START, steps), id) == 0
  {
    AnyInterleaving(maxRetries, steps);
    var s := Reached(maxRetries, START, steps);
    assert forall r :: r in s.requests ==> s.requests[r].tracked == 0;
    assert Trackers(s.requests, id) == {};
  }
}
