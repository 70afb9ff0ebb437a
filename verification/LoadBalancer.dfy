/** Account selection: status cool-downs, the filter loop, weighted least connections, session affinity. */
module LoadBalancer {
  import opened Bytes
  import RT = RequestTracking

  /** An account; the scheduler changes its status fields in place. Times are milliseconds, None the zero time. */
  class Account {
    const id: int
    const accountType: Bytes
    const agentMode: Bytes
    const weight: int
    const enabled: bool
    var statusCode: Bytes
    var lastAttempt: Option<int>
    var quotaResetAt: Option<int>

    constructor (id: int, accountType: Bytes, agentMode: Bytes, weight: int, enabled: bool)
      ensures this.id == id && this.accountType == accountType && this.agentMode == agentMode && this.weight == weight
      ensures this.enabled == enabled && Status() == CLEAR
    {
      this.id, this.accountType, this.agentMode, this.weight, this.enabled := id, accountType, agentMode, weight, enabled;
      statusCode, lastAttempt, quotaResetAt := "", None, None;
    }

    function Status(): AccountStatus
      reads this
    {
      AccountStatus(statusCode, lastAttempt, quotaResetAt)
    }
  }

  /** The status fields as a value. */
  datatype AccountStatus = AccountStatus(code: Bytes, lastAttempt: Option<int>, quotaResetAt: Option<int>)

  const CLEAR := AccountStatus("", None, None)

  const COOL_401 := 300_000
  const COOL_402 := 86_400_000
  const COOL_403 := 86_400_000
  const COOL_429 := 60_000

  // ------------------------------------------------------------------------------- cool-down

  predicate Passed(t: Option<int>, wait: int, now: int) { t.Some? && now - t.value >= wait }

  /** `isAccountAvailable`, without its side effect. */
  predicate Available(s: AccountStatus, now: int) { Recovered(TrimSpace(s.code), s, now) }

  /** The same for a trimmed status code. */
  predicate Recovered(code: Bytes, s: AccountStatus, now: int) {
    if code == "" then true
    else if code == "401" then Passed(s.lastAttempt, COOL_401, now)
    else if code == "429" then
      s.lastAttempt.Some? && (if s.quotaResetAt.Some? then now >= s.quotaResetAt.value else Passed(s.lastAttempt, COOL_429, now))
    else if code == "402" then
      (if s.quotaResetAt.Some? then now >= s.quotaResetAt.value else Passed(s.lastAttempt, COOL_402, now))
    else if code == "403" || code == "404" then Passed(s.lastAttempt, COOL_403, now)
    else Passed(s.lastAttempt, COOL_401, now)
  }

  /** The status after the check: cleared when it is passed and there is something to clear. */
  function Settled(s: AccountStatus, ok: bool): AccountStatus {
    if ok && TrimSpace(s.code) != "" then CLEAR else s
  }

  function Checked(s: AccountStatus, now: int): AccountStatus { Settled(s, Available(s, now)) }

  /** When an account may be used again. */
  datatype Ready = Always | From(time: int) | Never

  /** A reset time counts for 402 and 429, though for 429 only with a last attempt; otherwise it is one minute after the
      last attempt for 429, a day for 402, 403 and 404, and five minutes for any other code. */
  function ReadyWhen(s: AccountStatus): Ready {
    var code := TrimSpace(s.code);
    if code == "" then Always
    else if code == "402" && s.quotaResetAt.Some? then From(s.quotaResetAt.value)
    else if s.lastAttempt.None? then Never
    else if code == "429" && s.quotaResetAt.Some? then From(s.quotaResetAt.value)
    else
      var minutes := if code == "429" then 1 else if code == "402" || code == "403" || code == "404" then 24 * 60 else 5;
      From(s.lastAttempt.value + minutes * 60 * 1000)
  }

  predicate IsReady(s: AccountStatus, now: int) {
    match ReadyWhen(s)
    case Always => true
    case From(t) => now >= t
    case Never => false
  }

  /** The nested tests are one point in time. */
  lemma AvailableFrom(s: AccountStatus, now: int)
    ensures Available(s, now) <==> IsReady(s, now)
  {
    RecoveredFrom(TrimSpace(s.code), s, now);
  }

  lemma RecoveredFrom(code: Bytes, s: AccountStatus, now: int)
    requires code == TrimSpace(s.code)
    ensures Recovered(code, s, now) <==> IsReady(s, now)
  {
  }

  /** An account that has recovered stays available, and looking at it does not change the answer. */
  lemma RecoveryLasts(s: AccountStatus, now: int, later: int)
    requires now <= later
    ensures Available(s, now) ==> Available(s, later)
    ensures Available(Checked(s, now), later) == Available(s, later)
  {
    assert TrimSpace("") == "";
  }

  /** An account whose code is set recovers at some time exactly when it says when it was last tried, or, for 402,
      when its quota resets. */
  lemma WhichRecover(s: AccountStatus)
    requires TrimSpace(s.code) != ""
    ensures (exists now: int :: Available(s, now)) <==>
      s.lastAttempt.Some? || (TrimSpace(s.code) == "402" && s.quotaResetAt.Some?)
  {
    if s.lastAttempt.Some? || (TrimSpace(s.code) == "402" && s.quotaResetAt.Some?) {
      var a := if s.lastAttempt.Some? then s.lastAttempt.value + 86_400_000 else 0;
      var b := if s.quotaResetAt.Some? then s.quotaResetAt.value else 0;
      assert Available(s, if a > b then a else b);
    }
  }

  // ---------------------------------------------------------------------------- eligibility

  /** What a selection is asked for; `fold` is case folding, `accepts` the caller's filter. */
  datatype Ask = Ask(excluded: seq<int>, channel: Bytes, fold: Bytes -> Bytes, accepts: int -> bool, now: int)

  predicate Matches(q: Ask, a: Account) {
    && a.id !in q.excluded
    && (q.channel == "" || q.fold(a.accountType) == q.fold(q.channel) || q.fold(a.agentMode) == q.fold(q.channel))
    && q.accepts(a.id)
  }

  /** The account-wide 429 is ignored for the channel that blocks per model. */
  predicate Usable(q: Ask, s: AccountStatus) {
    Available(s, q.now) || (TrimSpace(s.code) == "429" && q.fold(q.channel) == q.fold("codebuff"))
  }

  function Weight(a: Account): (w: int)
    ensures w >= 1
  {
    if a.weight <= 0 then 1 else a.weight
  }

  function Conns(counts: map<int, nat>, a: Account): nat { if a.id in counts then counts[a.id] else 0 }

  function Score(counts: map<int, nat>, a: Account): real { Conns(counts, a) as real / Weight(a) as real }

  /** Comparing scores is comparing connections per weight, cross-multiplied. */
  lemma ScoreIsRatio(counts: map<int, nat>, a: Account, b: Account)
    ensures Score(counts, a) <= Score(counts, b) <==> Conns(counts, a) * Weight(b) <= Conns(counts, b) * Weight(a)
  {
    var p, q, r, s := Conns(counts, a) as real, Weight(a) as real, Conns(counts, b) as real, Weight(b) as real;
    RatioLe(p, q, r, s);
    assert p * s == (Conns(counts, a) * Weight(b)) as real;
    assert r * q == (Conns(counts, b) * Weight(a)) as real;
  }

  lemma RatioLe(p: real, q: real, r: real, s: real)
    requires q > 0.0 && s > 0.0
    ensures p / q <= r / s <==> p * s <= r * q
  {
    var x, y := p / q, r / s;
    assert p == x * q && r == y * s;
    assert p * s == x * (q * s) && r * q == y * (q * s);
    var m := q * s;
    assert m > 0.0;
    MulLe(x, y, m);
  }

  lemma MulLe(x: real, y: real, m: real)
    requires m > 0.0
    ensures x <= y <==> x * m <= y * m
  {
    assert y * m - x * m == (y - x) * m;
  }

  // --------------------------------------------------------------------------- weighted pick

  /** `selectAccountWithTracker`: any account of least score. */
  method SelectLeast(accounts: seq<Account>, counts: map<int, nat>) returns (best: Account)
    requires accounts != []
    ensures best in accounts && forall b :: b in accounts ==> Score(counts, best) <= Score(counts, b)
  {
    if |accounts| == 1 { return accounts[0]; }
    var bestAccounts: seq<Account> := [];
    var minScore := -1.0;
    for i := 0 to |accounts|
      invariant i > 0 ==> bestAccounts != []
      invariant forall k :: 0 <= k < |bestAccounts| ==> bestAccounts[k] in accounts && Score(counts, bestAccounts[k]) == minScore
      invariant forall b :: b in accounts[..i] ==> minScore <= Score(counts, b)
    {
      var score := Score(counts, accounts[i]);
      if bestAccounts == [] || score < minScore {
        bestAccounts, minScore := [accounts[i]], score;
      } else if score == minScore {
        bestAccounts := bestAccounts + [accounts[i]];
      }
    }
    assert accounts[..|accounts|] == accounts;
    var k :| 0 <= k < |bestAccounts|;
    best := bestAccounts[k];
  }

  /** Both channel and status rule the account out, the status by rate limiting. */
  predicate RateLimited(q: Ask, s: AccountStatus) { !Usable(q, s) && TrimSpace(s.code) == "429" }

  /** The nested tests of `isAccountAvailable`. */
  method HasRecovered(status: Bytes, s: AccountStatus, now: int) returns (ok: bool)
    ensures ok == Recovered(status, s, now)
  {
    if status == "" { return true; }
    if status == "429" && s.lastAttempt.None? { return false; }
    if (status == "402" || status == "429") && s.quotaResetAt.Some? { return now >= s.quotaResetAt.value; }
    if s.lastAttempt.None? { return false; }
    var wait := if status == "429" then COOL_429 else if status == "402" || status == "403" || status == "404" then COOL_403 else COOL_401;
    return now - s.lastAttempt.value >= wait;
  }

  /** The status check of one account, with its side effect. */
  method IsAccountAvailable(a: Account, now: int) returns (ok: bool)
    modifies a
    ensures ok == Available(old(a.Status()), now) && a.Status() == Settled(old(a.Status()), ok)
  {
    ok := HasRecovered(TrimSpace(a.statusCode), a.Status(), now);
    if ok && TrimSpace(a.statusCode) != "" { a.statusCode, a.lastAttempt, a.quotaResetAt := "", None, None; }
  }

  /** What the filter loop sees of an account. */
  datatype Look = Look(account: Account, matches: bool, usable: bool, limited: bool)

  function LookAt(q: Ask, a: Account, s: AccountStatus): Look {
    Look(a, Matches(q, a), Usable(q, s), TrimSpace(s.code) == "429")
  }

  function Looks(q: Ask, accounts: seq<Account>, was: seq<AccountStatus>): (l: seq<Look>)
    requires |was| == |accounts|
    ensures |l| == |accounts| && forall i :: 0 <= i < |l| ==> l[i] == LookAt(q, accounts[i], was[i])
  {
    seq(|accounts|, i requires 0 <= i < |accounts| => LookAt(q, accounts[i], was[i]))
  }

  /** The accounts left, how many matched, and how many of those were rate-limited. */
  datatype Sieve = Sieve(left: seq<Account>, matched: nat, limited: nat)

  function SieveOne(v: Sieve, l: Look): Sieve {
    if !l.matches then v
    else if l.usable then Sieve(v.left + [l.account], v.matched + 1, v.limited)
    else Sieve(v.left, v.matched + 1, if l.limited then v.limited + 1 else v.limited)
  }

  function Sieved(looks: seq<Look>): Sieve {
    if looks == [] then Sieve([], 0, 0) else SieveOne(Sieved(looks[..|looks| - 1]), looks[|looks| - 1])
  }

  predicate IsLeft(l: Look) { l.matches && l.usable }

  predicate IsLimited(l: Look) { l.matches && !l.usable && l.limited }

  /** What is left are the matching usable accounts. */
  lemma {:induction false} SieveLeaves(looks: seq<Look>)
    ensures forall i :: 0 <= i < |looks| && IsLeft(looks[i]) ==> looks[i].account in Sieved(looks).left
    ensures forall b :: b in Sieved(looks).left ==> exists i :: 0 <= i < |looks| && IsLeft(looks[i]) && looks[i].account == b
  {
    if looks != [] {
      var front := looks[..|looks| - 1];
      SieveLeaves(front);
      assert forall i :: 0 <= i < |front| ==> front[i] == looks[i];
      var l := looks[|looks| - 1];
      forall b | b in Sieved(looks).left ensures exists i :: 0 <= i < |looks| && IsLeft(looks[i]) && looks[i].account == b {
        if b in Sieved(front).left {
          var i :| 0 <= i < |front| && IsLeft(front[i]) && front[i].account == b;
          assert IsLeft(looks[i]);
        } else {
          assert IsLeft(looks[|looks| - 1]);
        }
      }
    }
  }

  /** All that matched were rate-limited when the two counts agree. */
  lemma {:induction false} SieveCounts(looks: seq<Look>)
    ensures var v := Sieved(looks);
      && v.limited <= v.matched
      && (v.matched > 0 <==> exists i :: 0 <= i < |looks| && looks[i].matches)
      && (v.limited == v.matched <==> forall i :: 0 <= i < |looks| && looks[i].matches ==> IsLimited(looks[i]))
  {
    if looks != [] {
      var front := looks[..|looks| - 1];
      SieveCounts(front);
      assert forall i :: 0 <= i < |front| ==> front[i] == looks[i];
    }
  }

  /** The filter loop. */
  method FilterAccounts(accounts: seq<Account>, q: Ask, ghost was: seq<AccountStatus>) returns (v: Sieve)
    requires forall i, j :: 0 <= i < j < |accounts| ==> accounts[i] != accounts[j]
    requires |was| == |accounts| && forall i :: 0 <= i < |accounts| ==> accounts[i].Status() == was[i]
    modifies accounts
    ensures v == Sieved(Looks(q, accounts, was))
    ensures forall i :: 0 <= i < |accounts| ==>
      accounts[i].Status() == if Matches(q, accounts[i]) then Checked(was[i], q.now) else was[i]
  {
    v := Sieve([], 0, 0);
    ghost var looks := Looks(q, accounts, was);
    for i := 0 to |accounts|
      invariant v == Sieved(looks[..i])
      invariant forall k :: i <= k < |accounts| ==> accounts[k].Status() == was[k]
      invariant forall k :: 0 <= k < i ==> accounts[k].Status() == if Matches(q, accounts[k]) then Checked(was[k], q.now) else was[k]
    {
      assert looks[..i + 1][..i] == looks[..i];
      v := FilterOne(accounts[i], q, v, was[i]);
    }
    assert looks[..|looks|] == looks;
  }

  /** One account of the filter loop. */
  method FilterOne(a: Account, q: Ask, v: Sieve, ghost was: AccountStatus) returns (r: Sieve)
    requires a.Status() == was
    modifies a
    ensures r == SieveOne(v, LookAt(q, a, was))
    ensures a.Status() == if Matches(q, a) then Checked(was, q.now) else was
  {
    if !Matches(q, a) { return v; }
    var code := TrimSpace(a.statusCode);
    var ok := IsAccountAvailable(a, q.now);
    var usable := ok || (code == "429" && q.fold(q.channel) == q.fold("codebuff"));
    assert usable == Usable(q, was);
    r := SieveOne(v, Look(a, true, usable, code == "429"));
  }

  datatype Pick = Picked(account: Account) | NoneFree | AllRateLimited

  /** `GetNextAccountExcludingByChannelWithTrackerFilter` on the enabled accounts, whose statuses were `was`: the pick
      is eligible and has the fewest connections per weight of all the eligible ones; none is picked exactly when none
      is eligible; and the rate-limit error is given exactly when accounts match and all of them are rate-limited. */
  method GetNextAccount(accounts: seq<Account>, q: Ask, counts: map<int, nat>, ghost was: seq<AccountStatus>) returns (p: Pick)
    requires forall i, j :: 0 <= i < j < |accounts| ==> accounts[i] != accounts[j]
    requires |was| == |accounts| && forall i :: 0 <= i < |accounts| ==> accounts[i].Status() == was[i]
    modifies accounts
    ensures PickSound(accounts, q, counts, was, p)
    ensures forall i :: 0 <= i < |accounts| ==>
      accounts[i].Status() == if Matches(q, accounts[i]) then Checked(was[i], q.now) else was[i]
  {
    var v := FilterAccounts(accounts, q, was);
    if v.left == [] {
      p := if q.channel != "" && v.matched > 0 && v.limited == v.matched then AllRateLimited else NoneFree;
    } else {
      var best := SelectLeast(v.left, counts);
      p := Picked(best);
    }
    SievePicks(accounts, q, counts, was, p);
  }

  /** The pick made from the loop's result. */
  ghost predicate PickOf(q: Ask, counts: map<int, nat>, v: Sieve, p: Pick) {
    if v.left == [] then p == if q.channel != "" && v.matched > 0 && v.limited == v.matched then AllRateLimited else NoneFree
    else p.Picked? && p.account in v.left && forall b :: b in v.left ==> Score(counts, p.account) <= Score(counts, b)
  }

  /** What it means for the accounts asked for. */
  lemma SievePicks(accounts: seq<Account>, q: Ask, counts: map<int, nat>, was: seq<AccountStatus>, p: Pick)
    requires |was| == |accounts|
    requires PickOf(q, counts, Sieved(Looks(q, accounts, was)), p)
    ensures PickSound(accounts, q, counts, was, p)
  {
    var looks := Looks(q, accounts, was);
    var v := Sieved(looks);
    SieveLeaves(looks);
    SieveCounts(looks);
    EligibleLooks(accounts, q, was);
    if v.left != [] {
      assert v.left[0] in v.left;
      var i :| 0 <= i < |looks| && IsLeft(looks[i]) && looks[i].account == p.account;
      assert Eligible(accounts, q, was, i);
    }
    LimitedLooks(accounts, q, was);
  }

  lemma EligibleLooks(accounts: seq<Account>, q: Ask, was: seq<AccountStatus>)
    requires |was| == |accounts|
    ensures forall i :: 0 <= i < |accounts| ==> (Eligible(accounts, q, was, i) <==> IsLeft(Looks(q, accounts, was)[i]))
    ensures forall i :: 0 <= i < |accounts| ==> Looks(q, accounts, was)[i].account == accounts[i]
  {
  }

  lemma LimitedLooks(accounts: seq<Account>, q: Ask, was: seq<AccountStatus>)
    requires |was| == |accounts|
    ensures forall i :: 0 <= i < |accounts| ==> (Matches(q, accounts[i]) <==> Looks(q, accounts, was)[i].matches)
    ensures forall i :: 0 <= i < |accounts| && Matches(q, accounts[i]) ==>
      (RateLimited(q, was[i]) <==> IsLimited(Looks(q, accounts, was)[i]))
  {
  }

  /** Account `i` could be picked. */
  predicate Eligible(accounts: seq<Account>, q: Ask, was: seq<AccountStatus>, i: int) {
    0 <= i < |accounts| == |was| && Matches(q, accounts[i]) && Usable(q, was[i])
  }

  ghost predicate PickSound(accounts: seq<Account>, q: Ask, counts: map<int, nat>, was: seq<AccountStatus>, p: Pick)
    requires |accounts| == |was|
  {
    && (p.Picked? ==>
         && (exists i :: Eligible(accounts, q, was, i) && accounts[i] == p.account)
         && (forall i :: Eligible(accounts, q, was, i) ==> Score(counts, p.account) <= Score(counts, accounts[i])))
    && (p.Picked? <==> exists i :: Eligible(accounts, q, was, i))
    && (p.AllRateLimited? <==>
         && q.channel != "" && (exists i :: 0 <= i < |accounts| && Matches(q, accounts[i]))
         && (forall i :: 0 <= i < |accounts| && Matches(q, accounts[i]) ==> RateLimited(q, was[i])))
  }

  /** The pick has no more connections per weight than any eligible account, compared as fractions, and is none of
      the excluded ones. */
  lemma PickIsLeast(accounts: seq<Account>, q: Ask, counts: map<int, nat>, was: seq<AccountStatus>, p: Pick, i: int)
    requires |accounts| == |was| && PickSound(accounts, q, counts, was, p) && Eligible(accounts, q, was, i)
    ensures p.Picked? && Conns(counts, p.account) * Weight(accounts[i]) <= Conns(counts, accounts[i]) * Weight(p.account)
    ensures p.account in accounts && p.account.id !in q.excluded
  {
    ScoreIsRatio(counts, p.account, accounts[i]);
  }

  /** On its fields, account `i` may serve: not excluded, accepted, of the channel when one is named, by its type or its
      agent mode, and ready, or rate-limited on the channel that blocks per model. */
  predicate MayServe(accounts: seq<Account>, q: Ask, was: seq<AccountStatus>, i: int) {
    && 0 <= i < |accounts| == |was| && accounts[i].id !in q.excluded && q.accepts(accounts[i].id) && OfChannel(q, accounts[i])
    && (IsReady(was[i], q.now) || (TrimSpace(was[i].code) == "429" && q.fold(q.channel) == q.fold("codebuff")))
  }

  predicate OfChannel(q: Ask, a: Account) {
    q.channel != "" ==> q.fold(a.accountType) == q.fold(q.channel) || q.fold(a.agentMode) == q.fold(q.channel)
  }

  /** Connections over weight, a weight that is not positive being one, compared by cross-multiplication. */
  predicate NoBusier(counts: map<int, nat>, a: Account, b: Account) {
    (if a.id in counts then counts[a.id] else 0) * (if b.weight > 0 then b.weight else 1)
      <= (if b.id in counts then counts[b.id] else 0) * (if a.weight > 0 then a.weight else 1)
  }

  /** What a pick means on the fields of the accounts. */
  lemma PickMeans(accounts: seq<Account>, q: Ask, counts: map<int, nat>, was: seq<AccountStatus>, p: Pick)
    requires |accounts| == |was| && PickSound(accounts, q, counts, was, p)
    ensures p.Picked? <==> exists i :: MayServe(accounts, q, was, i)
    ensures p.Picked? ==>
      && (exists i :: MayServe(accounts, q, was, i) && accounts[i] == p.account)
      && (forall i :: MayServe(accounts, q, was, i) ==> NoBusier(counts, p.account, accounts[i]))
    ensures p.AllRateLimited? <==>
      && q.channel != "" && q.fold(q.channel) != q.fold("codebuff") && (exists i :: Asked(accounts, q, i))
      && (forall i :: Asked(accounts, q, i) ==> !IsReady(was[i], q.now) && TrimSpace(was[i].code) == "429")
  {
    forall i ensures Eligible(accounts, q, was, i) <==> MayServe(accounts, q, was, i) {
      if 0 <= i < |accounts| { AvailableFrom(was[i], q.now); }
    }
    if p.Picked? {
      forall i | MayServe(accounts, q, was, i) ensures NoBusier(counts, p.account, accounts[i]) {
        ScoreIsRatio(counts, p.account, accounts[i]);
      }
    }
    forall i ensures Asked(accounts, q, i) <==> 0 <= i < |accounts| && Matches(q, accounts[i]) {}
    forall i | 0 <= i < |accounts| ensures RateLimited(q, was[i]) <==>
      !IsReady(was[i], q.now) && TrimSpace(was[i].code) == "429" && q.fold(q.channel) != q.fold("codebuff")
    {
      AvailableFrom(was[i], q.now);
    }
  }

  /** Account `i` is one the caller asks about, whatever its status. */
  predicate Asked(accounts: seq<Account>, q: Ask, i: int) {
    0 <= i < |accounts| && accounts[i].id !in q.excluded && q.accepts(accounts[i].id) && OfChannel(q, accounts[i])
  }

  // -------------------------------------------------------------------------- enabled accounts

  /** The balancer's cache of enabled accounts. */
  class Cache {
    var cached: seq<Account>
    var expires: int
    const ttl: int

    ghost predicate Valid()
      reads this
    {
      forall i :: 0 <= i < |cached| ==> cached[i].enabled
    }

    constructor (ttl: int)
      ensures Valid()
    {
      cached, expires, this.ttl := [], 0, ttl;
    }

    /** `getEnabledAccounts`: the cache while it is fresh and not empty, else the store's enabled accounts. */
    method GetEnabledAccounts(stored: seq<Account>, now: int) returns (accounts: seq<Account>)
      requires Valid()
      modifies this
      ensures Valid() && accounts == cached && forall i :: 0 <= i < |accounts| ==> accounts[i].enabled
      ensures |old(cached)| > 0 && now < old(expires) ==> accounts == old(cached)
      ensures !(|old(cached)| > 0 && now < old(expires)) ==> forall a :: a in accounts <==> a in stored && a.enabled
      ensures expires == if |old(cached)| > 0 && now < old(expires) then old(expires) else now + ttl
    {
      if |cached| > 0 && now < expires { return cached; }
      accounts := [];
      for i := 0 to |stored|
        invariant forall a :: a in accounts <==> a in stored[..i] && a.enabled
      {
        if stored[i].enabled { accounts := accounts + [stored[i]]; }
      }
      assert stored[..|stored|] == stored;
      assert forall i :: 0 <= i < |accounts| ==> accounts[i] in accounts;
      cached, expires := accounts, now + ttl;
    }
  }

  // ------------------------------------------------------------------------------- affinity

  /** What affinity looks up: an account's token, and whether a session of that token and the model is cached. */
  datatype Sessions = Sessions(token: int -> Bytes, cached: (Bytes, Bytes) -> bool)

  predicate HasSession(x: Sessions, q: Ask, model: Bytes, a: Account) {
    && q.fold(a.accountType) == q.fold("codebuff") && x.token(a.id) != "" && x.cached(x.token(a.id), model)
    && a.id !in q.excluded && a.enabled && q.accepts(a.id)
  }

  /** `trySessionAffinity`: the first account that holds a session for the model and may be used. */
  method TryAffinity(accounts: seq<Account>, q: Ask, x: Sessions, model: Bytes) returns (found: Option<Account>)
    ensures AffinitySound(accounts, q, x, model, found)
  {
    for i := 0 to |accounts|
      invariant forall j :: 0 <= j < i ==> !HasSession(x, q, model, accounts[j])
    {
      var a := accounts[i];
      if q.fold(a.accountType) == q.fold("codebuff") && x.token(a.id) != "" && x.cached(x.token(a.id), model) {
        if a.id !in q.excluded && a.enabled && q.accepts(a.id) { return Some(a); }
      }
    }
    return None;
  }

  ghost predicate NoneBefore(accounts: seq<Account>, q: Ask, x: Sessions, model: Bytes, i: int)
    requires i <= |accounts|
  {
    forall j :: 0 <= j < i ==> !HasSession(x, q, model, accounts[j])
  }

  /** None when no account qualifies, else the first that does. */
  ghost predicate AffinitySound(accounts: seq<Account>, q: Ask, x: Sessions, model: Bytes, found: Option<Account>) {
    match found
    case None => forall j :: 0 <= j < |accounts| ==> !HasSession(x, q, model, accounts[j])
    case Some(a) =>
      exists i :: 0 <= i < |accounts| && accounts[i] == a && HasSession(x, q, model, a) && NoneBefore(accounts, q, x, model, i)
  }

  /** Affinity decides: the model and channel call for it, and some account qualifies. */
  ghost predicate Affine(all: seq<Account>, q: Ask, x: Sessions, model: Bytes) {
    model != "" && q.fold(q.channel) == q.fold("codebuff") && exists i :: 0 <= i < |all| && HasSession(x, q, model, all[i])
  }

  /** What selection may answer: the first account with a session when affinity decides, else what the balancer picks. */
  ghost predicate SelectSound(all: seq<Account>, enabled: seq<Account>, q: Ask, counts: map<int, nat>, x: Sessions, model: Bytes,
                              was: seq<AccountStatus>, p: Pick)
    requires |enabled| == |was|
  {
    if Affine(all, q, x, model) then p.Picked? && AffinitySound(all, q, x, model, Some(p.account))
    else PickSound(enabled, q, counts, was, p)
  }

  /** What affinity means on the fields: the account is of type codebuff, holds a cached session of its token for the model,
      and is enabled, accepted and not excluded; and no account before it is all that. */
  lemma AffinityMeans(accounts: seq<Account>, q: Ask, x: Sessions, model: Bytes, found: Option<Account>)
    requires AffinitySound(accounts, q, x, model, found)
    ensures found.None? <==> forall j :: !Holds(accounts, q, x, model, j)
    ensures found.Some? ==>
      exists i :: Holds(accounts, q, x, model, i) && accounts[i] == found.value && forall j :: 0 <= j < i ==> !Holds(accounts, q, x, model, j)
  {
    forall j ensures Holds(accounts, q, x, model, j) <==> 0 <= j < |accounts| && HasSession(x, q, model, accounts[j]) {}
    if found.Some? {
      var i :| 0 <= i < |accounts| && accounts[i] == found.value && HasSession(x, q, model, found.value) && NoneBefore(accounts, q, x, model, i);
      assert Holds(accounts, q, x, model, i);
    }
  }

  predicate Holds(accounts: seq<Account>, q: Ask, x: Sessions, model: Bytes, j: int) {
    && 0 <= j < |accounts| && q.fold(accounts[j].accountType) == q.fold("codebuff")
    && (var token := x.token(accounts[j].id); token != "" && x.cached(token, model))
    && accounts[j].enabled && accounts[j].id !in q.excluded && q.accepts(accounts[j].id)
  }

  /** `selectAccountRecordWithOptions`: affinity for a named model of the codebuff channel, the balancer otherwise.
      What it returns is enabled, accepted by the filter, and none of the excluded accounts. */
  method SelectRecord(all: seq<Account>, enabled: seq<Account>, q: Ask, counts: map<int, nat>, x: Sessions, model: Bytes,
                      ghost was: seq<AccountStatus>) returns (p: Pick)
    requires forall i, j :: 0 <= i < j < |enabled| ==> enabled[i] != enabled[j]
    requires |was| == |enabled| && forall i :: 0 <= i < |enabled| ==> enabled[i].enabled && enabled[i].Status() == was[i]
    modifies enabled
    ensures SelectSound(all, enabled, q, counts, x, model, was, p)
    ensures p.Picked? ==> p.account.enabled && p.account.id !in q.excluded && q.accepts(p.account.id)
  {
    if model != "" && q.fold(q.channel) == q.fold("codebuff") {
      var found := TryAffinity(all, q, x, model);
      if found.Some? { return Picked(found.value); }
    }
    p := GetNextAccount(enabled, q, counts, was);
  }

  /** What a request in either retry loop is told. */
  function ToldOf(p: Pick): Option<Option<int>> { if p.Picked? then Some(Some(p.account.id)) else None }

  /** A request that excludes the accounts it has marked as failed may take whatever is selected: the step is one that
      `RequestTracking` allows. */
  lemma SelectionIsEnabled(all: seq<Account>, enabled: seq<Account>, q: Ask, counts: map<int, nat>, x: Sessions, model: Bytes,
                           was: seq<AccountStatus>, p: Pick, request: RT.Request, r: int)
    requires |enabled| == |was| && SelectSound(all, enabled, q, counts, x, model, was, p)
    requires request.pc.Selecting? && forall id :: id in request.failed ==> id in q.excluded
    ensures RT.RequestEnabled(request, RT.Select(r, ToldOf(p)))
  {
  }
}
