/** Whole histories of the model store: what keeps both indexes, every lookup and the default flag right, and the
    inputs that do not. */
module ModelHistory {
  import opened Bytes
  import opened ModelIndex

  // ------------------------------------------------------------------------------ histories

  /** A call of the store. `ids` is the listing it clears defaults over, `pick` the first match of its scan. */
  datatype Op =
    | StoreCreate(m: Model, ids: seq<Bytes>)
    | StoreUpdate(m: Model, ids: seq<Bytes>)
    | Delete(id: Bytes)
    | FindGlobal(modelID: Bytes, pick: Option<Bytes>)
    | FindChannel(channel: Bytes, modelID: Bytes, pick: Option<Bytes>)

  /** The listing has every model, and the first match is one. */
  ghost predicate Possible(x: Text, db: Db, op: Op) {
    match op
    case StoreCreate(m, ids) => m.isDefault ==> Lists(db, ids)
    case StoreUpdate(m, ids) => m.isDefault ==> Lists(db, ids)
    case Delete(_) => true
    case FindGlobal(modelID, pick) => IsPickGlobal(db, x.trim(modelID), pick)
    case FindChannel(channel, modelID, pick) => IsPickChannel(x, db, channel, x.trim(modelID), pick)
  }

  ghost function Next(x: Text, db: Db, op: Op): Db
    requires Possible(x, db, op)
  {
    match op
    case StoreCreate(m, ids) => StoreCreated(x, db, ids, m)
    case StoreUpdate(m, ids) => StoreUpdated(x, db, ids, m)
    case Delete(id) => Deleted(x, db, id)
    case FindGlobal(modelID, pick) => LookupGlobal(x, db, modelID, pick).1
    case FindChannel(channel, modelID, pick) => LookupChannel(x, db, channel, modelID, pick).1
  }

  ghost predicate IsRun(x: Text, db: Db, ops: seq<Op>)
    decreases |ops|
  {
    ops == [] || (Possible(x, db, ops[0]) && IsRun(x, Next(x, db, ops[0]), ops[1..]))
  }

  ghost function Reached(x: Text, db: Db, ops: seq<Op>): Db
    requires IsRun(x, db, ops)
    decreases |ops|
  {
    if ops == [] then db else Reached(x, Next(x, db, ops[0]), ops[1..])
  }

  // ----------------------------------------------------------------- what the inputs alone say

  /** What the calls so far were given: the model id last stored under each id, and how many models were created. */
  datatype Ledger = Ledger(modelIDs: map<Bytes, Bytes>, created: nat)

  const BLANK := Ledger(map[], 0)

  function Noted(l: Ledger, op: Op): Ledger {
    match op
    case StoreCreate(m, _) => Ledger(l.modelIDs[DecimalNat(l.created + 1) := m.modelID], l.created + 1)
    case StoreUpdate(m, _) => if m.id == "" then l else l.(modelIDs := l.modelIDs[m.id := m.modelID])
    case Delete(id) => if id == "" then l else l.(modelIDs := l.modelIDs - {id})
    case _ => l
  }

  /** Channels have no bar and model ids are trimmed. */
  predicate PlainModel(x: Text, m: Model) { NoBar(m.channel) && x.trim(m.modelID) == m.modelID }

  /** The id is not one that a later create will be given; nameless models may have any id. */
  ghost predicate Known(x: Text, l: Ledger, m: Model) {
    Named(x, m) ==> forall n: nat :: n > l.created ==> DecimalNat(n) != m.id
  }

  ghost predicate TidyOp(x: Text, l: Ledger, op: Op) {
    match op
    case StoreCreate(m, _) => PlainModel(x, m)
    case StoreUpdate(m, _) => PlainModel(x, m) && Known(x, l, m)
    case _ => true
  }

  /** Every model stored is plain and every update is under a known id. */
  ghost predicate Tidy(x: Text, l: Ledger, ops: seq<Op>)
    decreases |ops|
  {
    ops == [] || (TidyOp(x, l, ops[0]) && Tidy(x, Noted(l, ops[0]), ops[1..]))
  }

  /** Every update keeps the model id stored under its id. */
  predicate KeepsModelIDs(l: Ledger, ops: seq<Op>)
    decreases |ops|
  {
    ops == [] || (KeepsID(l, ops[0]) && KeepsModelIDs(Noted(l, ops[0]), ops[1..]))
  }

  predicate KeepsID(l: Ledger, op: Op) {
    op.StoreUpdate? && op.m.id in l.modelIDs ==> l.modelIDs[op.m.id] == op.m.modelID
  }

  // ----------------------------------------------------------------------- what every call keeps

  ghost predicate Sound(x: Text, db: Db) { IdsSound(x, db) && ChannelSound(x, db) && Plain(x, db) && OneDefault(db) }

  /** The ledger is right about the records. */
  predicate Agrees(l: Ledger, db: Db) {
    && db.next == l.created && db.records.Keys == l.modelIDs.Keys
    && forall id :: id in db.records ==> db.records[id].modelID == l.modelIDs[id]
  }

  /** The models once the defaults are cleared. */
  lemma ClearedSound(x: Text, db: Db, l: Ledger, ids: seq<Bytes>, channel: Bytes, keep: Bytes)
    requires Sound(x, db) && Agrees(l, db)
    ensures var c := Cleared(x, db, ids, channel, keep);
      && IdsSound(x, c) && ChannelSound(x, c) && Plain(x, c) && Agrees(l, c) && (GlobalSound(x, db) ==> GlobalSound(x, c))
  {
    ClearedKeeps(x, db, ids, channel, keep);
  }

  lemma CreatedStep(x: Text, c: Db, l: Ledger, m: Model)
    requires IdsSound(x, c) && ChannelSound(x, c) && Plain(x, c) && Agrees(l, c) && PlainModel(x, m)
    ensures var t := Created(x, c, m);
      && IdsSound(x, t) && ChannelSound(x, t) && Plain(x, t) && Agrees(Noted(l, StoreCreate(m, [])), t)
      && (GlobalSound(x, c) ==> GlobalSound(x, t))
  {
    CreateKeeps(x, c, m);
  }

  lemma CreateStep(x: Text, db: Db, l: Ledger, m: Model, ids: seq<Bytes>)
    requires Sound(x, db) && Agrees(l, db) && PlainModel(x, m) && (m.isDefault ==> Lists(db, ids))
    ensures var t := StoreCreated(x, db, ids, m);
      Sound(x, t) && Agrees(Noted(l, StoreCreate(m, ids)), t) && (GlobalSound(x, db) ==> GlobalSound(x, t))
  {
    ClearedSound(x, db, l, ids, m.channel, "");
    CreatedStep(x, if m.isDefault then Cleared(x, db, ids, m.channel, "") else db, l, m);
    CreateKeepsOneDefault(x, db, ids, m);
  }

  lemma UpdatedStep(x: Text, c: Db, l: Ledger, m: Model)
    requires IdsSound(x, c) && ChannelSound(x, c) && Plain(x, c) && Agrees(l, c) && PlainModel(x, m) && Known(x, l, m)
    ensures var t := Updated(x, c, m);
      && IdsSound(x, t) && ChannelSound(x, t) && Plain(x, t) && Agrees(Noted(l, StoreUpdate(m, [])), t)
      && (GlobalSound(x, c) && KeepsID(l, StoreUpdate(m, [])) ==> GlobalSound(x, t))
  {
    PlainNeverBlanks(x, c, m);
    UpdateStep(x, c, m);
    UpdatedRecords(x, c, l, m);
    if GlobalSound(x, c) && KeepsID(l, StoreUpdate(m, [])) { assert !Strands(c, m); }
  }

  lemma UpdatedRecords(x: Text, c: Db, l: Ledger, m: Model)
    requires Plain(x, c) && Agrees(l, c) && PlainModel(x, m)
    ensures Plain(x, Updated(x, c, m)) && Agrees(Noted(l, StoreUpdate(m, [])), Updated(x, c, m))
  {
  }

  lemma StoreUpdateStep(x: Text, db: Db, l: Ledger, m: Model, ids: seq<Bytes>)
    requires Sound(x, db) && Agrees(l, db) && PlainModel(x, m) && Known(x, l, m) && (m.isDefault ==> Lists(db, ids))
    ensures var t := StoreUpdated(x, db, ids, m);
      && Sound(x, t) && Agrees(Noted(l, StoreUpdate(m, ids)), t)
      && (GlobalSound(x, db) && KeepsID(l, StoreUpdate(m, ids)) ==> GlobalSound(x, t))
  {
    ClearedSound(x, db, l, ids, m.channel, m.id);
    UpdatedStep(x, if m.isDefault then Cleared(x, db, ids, m.channel, m.id) else db, l, m);
    UpdateKeepsOneDefault(x, db, ids, m);
  }

  lemma DeleteStep(x: Text, db: Db, l: Ledger, id: Bytes)
    requires Sound(x, db) && Agrees(l, db)
    ensures var t := Deleted(x, db, id);
      Sound(x, t) && Agrees(Noted(l, Delete(id)), t) && (GlobalSound(x, db) ==> GlobalSound(x, t))
  {
    DeleteKeeps(x, db, id);
  }

  lemma FindGlobalStep(x: Text, db: Db, l: Ledger, asked: Bytes, pick: Option<Bytes>)
    requires Sound(x, db) && Agrees(l, db) && IsPickGlobal(db, x.trim(asked), pick)
    ensures var t := LookupGlobal(x, db, asked, pick).1;
      Sound(x, t) && Agrees(l, t) && (GlobalSound(x, db) ==> GlobalSound(x, t))
  {
    if GlobalSound(x, db) { GlobalIsRight(x, db, asked, pick); }
    SameRecords(x, db, LookupGlobal(x, db, asked, pick).1);
  }

  lemma FindChannelStep(x: Text, db: Db, l: Ledger, channel: Bytes, asked: Bytes, pick: Option<Bytes>)
    requires Sound(x, db) && Agrees(l, db) && IsPickChannel(x, db, channel, x.trim(asked), pick)
    ensures var t := LookupChannel(x, db, channel, asked, pick).1;
      Sound(x, t) && Agrees(l, t) && (GlobalSound(x, db) ==> GlobalSound(x, t))
  {
    RepairKeeps(x, db, channel, asked, pick);
    SameRecords(x, db, LookupChannel(x, db, channel, asked, pick).1);
  }

  /** What is said of the records alone. */
  lemma SameRecords(x: Text, db: Db, t: Db)
    requires t.records == db.records && t.next == db.next
    ensures IdsSound(x, db) ==> IdsSound(x, t)
    ensures Plain(x, db) ==> Plain(x, t)
    ensures OneDefault(db) ==> OneDefault(t)
  {
  }

  /** Every call of tidy inputs keeps the indexes, the defaults and the ledger right. */
  lemma StepKeeps(x: Text, db: Db, l: Ledger, op: Op)
    requires Sound(x, db) && Agrees(l, db) && Possible(x, db, op) && TidyOp(x, l, op)
    ensures Sound(x, Next(x, db, op)) && Agrees(Noted(l, op), Next(x, db, op))
    ensures GlobalSound(x, db) && KeepsID(l, op) ==> GlobalSound(x, Next(x, db, op))
  {
    match op
    case StoreCreate(m, ids) => CreateStep(x, db, l, m, ids);
    case StoreUpdate(m, ids) => StoreUpdateStep(x, db, l, m, ids);
    case Delete(id) => DeleteStep(x, db, l, id);
    case FindGlobal(modelID, pick) => FindGlobalStep(x, db, l, modelID, pick);
    case FindChannel(channel, modelID, pick) => FindChannelStep(x, db, l, channel, modelID, pick);
  }

  lemma {:induction false} HistoryKeeps(x: Text, db: Db, l: Ledger, ops: seq<Op>)
    requires Sound(x, db) && Agrees(l, db) && IsRun(x, db, ops) && Tidy(x, l, ops)
    ensures Sound(x, Reached(x, db, ops))
    ensures GlobalSound(x, db) && KeepsModelIDs(l, ops) ==> GlobalSound(x, Reached(x, db, ops))
    decreases |ops|
  {
    if ops != [] {
      StepKeeps(x, db, l, ops[0]);
      HistoryKeeps(x, Next(x, db, ops[0]), Noted(l, ops[0]), ops[1..]);
    }
  }

  /** Every lookup by channel and model id, and every lookup by model id, is right. */
  ghost predicate ChannelLookupsRight(x: Text, db: Db) {
    forall channel, asked, pick :: NoBar(channel) && IsPickChannel(x, db, channel, x.trim(asked), pick) ==>
      RightChannel(x, db, channel, asked, LookupChannel(x, db, channel, asked, pick).0)
  }

  ghost predicate GlobalLookupsRight(x: Text, db: Db) {
    forall asked, pick :: IsPickGlobal(db, x.trim(asked), pick) ==> RightGlobal(x, db, asked, LookupGlobal(x, db, asked, pick).0)
  }

  /** Along every history from the empty store in which channels have no bar, model ids are trimmed and updates are
      under ids that no later create is given: both operations of the store keep at most one default per channel, the
      channel index is sound, and a lookup by channel and model id answers as a scan would. When updates keep model
      ids, so do the global index and the lookup by model id. Nothing is assumed of the states in between. */
  lemma HistoryIsSound(x: Text, ops: seq<Op>)
    requires Proper(x) && IsRun(x, EMPTY, ops) && Tidy(x, BLANK, ops)
    ensures var db := Reached(x, EMPTY, ops);
      && IdsSound(x, db) && OneDefault(db) && ChannelSound(x, db) && ChannelLookupsRight(x, db)
      && (KeepsModelIDs(BLANK, ops) ==> GlobalSound(x, db) && GlobalLookupsRight(x, db))
  {
    HistoryKeeps(x, EMPTY, BLANK, ops);
    var db := Reached(x, EMPTY, ops);
    forall channel, asked, pick | NoBar(channel) && IsPickChannel(x, db, channel, x.trim(asked), pick)
      ensures RightChannel(x, db, channel, asked, LookupChannel(x, db, channel, asked, pick).0)
    {
      ChannelIsRight(x, db, channel, asked, pick);
    }
    if GlobalSound(x, db) {
      forall asked, pick | IsPickGlobal(db, x.trim(asked), pick) ensures RightGlobal(x, db, asked, LookupGlobal(x, db, asked, pick).0) {
        GlobalIsRight(x, db, asked, pick);
      }
    }
  }

  // ------------------------------------------------------- an update under an id not given out yet

  const NAMELESS := Model("", "", "", false)

  function Creates(n: nat): seq<Op> { if n == 0 then [] else [StoreCreate(NAMELESS, [])] + Creates(n - 1) }

  lemma NamelessCreated(x: Text, db: Db)
    requires Proper(x)
    ensures var t := Created(x, db, NAMELESS);
      t.channels == db.channels && t.next == db.next + 1 && t.records[DecimalNat(t.next)].modelID == ""
  {
  }

  lemma CreatesTurn(x: Text, db: Db, l: Ledger, n: nat, t: Db)
    requires Proper(x) && n >= 1 && t == Next(x, db, StoreCreate(NAMELESS, []))
    ensures IsRun(x, db, Creates(n)) <==> IsRun(x, t, Creates(n - 1))
    ensures Tidy(x, l, Creates(n)) <==> Tidy(x, Noted(l, StoreCreate(NAMELESS, [])), Creates(n - 1))
    ensures IsRun(x, db, Creates(n)) ==> Reached(x, db, Creates(n)) == Reached(x, t, Creates(n - 1))
  {
    assert Creates(n)[0] == StoreCreate(NAMELESS, []) && Creates(n)[1..] == Creates(n - 1);
  }

  lemma NoneSound(x: Text, t: Db, k: Bytes, id: Bytes)
    requires Proper(x) && k in t.channels && t.channels[k] == id && id in t.records && t.records[id].modelID == ""
    ensures !ChannelSound(x, t)
  {
  }

  /** The entry of a named model under an id still to be given out dangles once enough models are created. */
  lemma {:induction false} CreatesOverwrite(x: Text, db: Db, l: Ledger, k: Bytes, n: nat, id: Bytes)
    requires Proper(x) && n >= 1 && k in db.channels && db.channels[k] == id && id == DecimalNat(db.next + n)
    ensures IsRun(x, db, Creates(n)) && Tidy(x, l, Creates(n)) && !ChannelSound(x, Reached(x, db, Creates(n)))
    decreases n
  {
    var op := StoreCreate(NAMELESS, []);
    var t := Next(x, db, op);
    NamelessCreated(x, db);
    CreatesTurn(x, db, l, n, t);
    if n == 1 {
      NoneSound(x, t, k, id);
    } else {
      CreatesOverwrite(x, t, Noted(l, op), k, n - 1, id);
    }
  }

  /** Whatever follows, the channel index stays sound. */
  ghost predicate StaysSound(x: Text, db: Db, l: Ledger) {
    forall ops :: IsRun(x, db, ops) && Tidy(x, l, ops) ==> ChannelSound(x, Reached(x, db, ops))
  }

  lemma KnownStays(x: Text, db: Db, l: Ledger)
    requires Sound(x, db) && Agrees(l, db)
    ensures StaysSound(x, db, l)
  {
    forall ops | IsRun(x, db, ops) && Tidy(x, l, ops) ensures ChannelSound(x, Reached(x, db, ops)) { HistoryKeeps(x, db, l, ops); }
  }

  lemma UnknownSpoils(x: Text, t: Db, l: Ledger, k: Bytes, n: nat)
    requires Proper(x) && n > t.next && k in t.channels && t.channels[k] == DecimalNat(n)
    ensures !StaysSound(x, t, l)
  {
    CreatesOverwrite(x, t, l, k, n - t.next, DecimalNat(n));
  }

  lemma UpdateWrites(x: Text, db: Db, l: Ledger, m: Model, ids: seq<Bytes>)
    requires Sound(x, db) && Agrees(l, db) && m.id != "" && Named(x, m)
    ensures var t := StoreUpdated(x, db, ids, m); t.next == l.created && KeyOf(x, m) in t.channels && t.channels[KeyOf(x, m)] == m.id
  {
    ClearedSound(x, db, l, ids, m.channel, m.id);
  }

  /** An update of a sound store leaves the channel index sound along every tidy continuation if and only if its model
      is nameless or its id is not one a later create will be given. */
  lemma UpdateIsSettledIff(x: Text, db: Db, l: Ledger, m: Model, ids: seq<Bytes>)
    requires Sound(x, db) && Agrees(l, db) && m.id != "" && PlainModel(x, m) && Possible(x, db, StoreUpdate(m, ids))
    ensures StaysSound(x, Next(x, db, StoreUpdate(m, ids)), Noted(l, StoreUpdate(m, ids))) <==> Known(x, l, m)
  {
    var op := StoreUpdate(m, ids);
    if Known(x, l, m) {
      StepKeeps(x, db, l, op);
      KnownStays(x, Next(x, db, op), Noted(l, op));
    } else {
      var n: nat :| n > l.created && DecimalNat(n) == m.id;
      UpdateWrites(x, db, l, m, ids);
      UnknownSpoils(x, Next(x, db, op), Noted(l, op), KeyOf(x, m), n);
    }
  }

  lemma RunTwo(x: Text, a: Op, b: Op)
    requires Possible(x, EMPTY, a) && Possible(x, Next(x, EMPTY, a), b)
    ensures IsRun(x, EMPTY, [a, b]) && Reached(x, EMPTY, [a, b]) == Next(x, Next(x, EMPTY, a), b)
  {
    assert [a, b][0] == a && [a, b][1..] == [b] && [b][0] == b && [b][1..] == [];
    var t := Next(x, EMPTY, a);
    assert IsRun(x, Next(x, t, b), []);
    assert IsRun(x, t, [b]) && Reached(x, t, [b]) == Next(x, t, b);
  }

  /** In the empty store, an update under id 1 and then a create: looking up what was stored finds the other model. */
  lemma EarlyUpdateDangles(x: Text, channel: Bytes, modelID: Bytes)
    requires Proper(x) && x.trim(modelID) == modelID && modelID != ""
    ensures var ops := [StoreUpdate(Model(DecimalNat(1), channel, modelID, false), []), StoreCreate(NAMELESS, [])];
      && IsRun(x, EMPTY, ops)
      && forall pick :: IsPickChannel(x, Reached(x, EMPTY, ops), channel, modelID, pick) ==>
           !RightChannel(x, Reached(x, EMPTY, ops), channel, modelID, LookupChannel(x, Reached(x, EMPTY, ops), channel, modelID, pick).0)
  {
    var m := Model(DecimalNat(1), channel, modelID, false);
    var a, b := StoreUpdate(m, []), StoreCreate(NAMELESS, []);
    RunTwo(x, a, b);
    var t := Next(x, Next(x, EMPTY, a), b);
    assert t.channels == map[KeyOf(x, m) := m.id] && t.records[m.id].modelID == "";
  }

  // ---------------------------------------------------------------- inputs that break an index

  /** An update that takes the model id away: looking up the old id finds the model under its new one. */
  lemma StrandsHappens(x: Text, channel: Bytes, a: Bytes, b: Bytes)
    requires Proper(x) && x.trim(a) == a && a != "" && a != b
    ensures var ops := [StoreCreate(Model("", channel, a, false), []), StoreUpdate(Model(DecimalNat(1), channel, b, false), [])];
      && IsRun(x, EMPTY, ops)
      && forall pick :: IsPickGlobal(Reached(x, EMPTY, ops), a, pick) ==>
           !RightGlobal(x, Reached(x, EMPTY, ops), a, LookupGlobal(x, Reached(x, EMPTY, ops), a, pick).0)
  {
    var id := DecimalNat(1);
    var p, q := StoreCreate(Model("", channel, a, false), []), StoreUpdate(Model(id, channel, b, false), []);
    RunTwo(x, p, q);
    var s := Next(x, EMPTY, p);
    assert s.global == map[a := id] && s.records == map[id := Model(id, channel, a, false)];
    assert Strands(s, q.m);
    var t := Next(x, s, q);
    assert t.global[a] == id && t.records[id].modelID == b;
  }

  /** An update that blanks a model id under the same key, which takes a bar in its channel: looking up the old id
      finds the nameless model. */
  lemma BlanksHappens(x: Text, c: Bytes, a: Bytes)
    requires Proper(x) && x.norm(c) == c && x.norm(c + (BAR + a)) == c + (BAR + a) && x.trim(a + BAR) == a + BAR
    ensures var ops := [StoreCreate(Model("", c, a + BAR, false), []), StoreUpdate(Model(DecimalNat(1), c + (BAR + a), "", false), [])];
      && IsRun(x, EMPTY, ops)
      && forall pick :: IsPickChannel(x, Reached(x, EMPTY, ops), c, a + BAR, pick) ==>
           !RightChannel(x, Reached(x, EMPTY, ops), c, a + BAR, LookupChannel(x, Reached(x, EMPTY, ops), c, a + BAR, pick).0)
  {
    var id := DecimalNat(1);
    var p, q := StoreCreate(Model("", c, a + BAR, false), []), StoreUpdate(Model(id, c + (BAR + a), "", false), []);
    RunTwo(x, p, q);
    var s := Next(x, EMPTY, p);
    var k := Key(x, c, a + BAR);
    assert (c + (BAR + a)) + (BAR + "") == c + (BAR + (a + BAR));
    assert s.channels == map[k := id] && s.records == map[id := Model(id, c, a + BAR, false)];
    assert Blanks(x, s, q.m);
    var t := Next(x, s, q);
    assert t.channels[k] == id && t.records[id].modelID == "";
  }

  /** A model id stored with white space around it: looking up the trimmed id finds it, though a scan would not. */
  lemma UntrimmedHappens(x: Text, channel: Bytes, stored: Bytes, asked: Bytes)
    requires Proper(x) && x.trim(stored) == asked && asked != "" && asked != stored
    ensures var db := Created(x, EMPTY, Model("", channel, stored, false));
      && IdsSound(x, db) && ChannelSound(x, db) && IsPickChannel(x, db, channel, asked, None)
      && !RightChannel(x, db, channel, asked, LookupChannel(x, db, channel, asked, None).0)
  {
    var id, m := DecimalNat(1), Model("", channel, stored, false);
    CreateKeeps(x, EMPTY, m);
    var db := Created(x, EMPTY, m);
    assert db.records == map[id := m.(id := id)] && db.channels == map[Key(x, channel, asked) := id];
  }

  // ------------------------------------------------------------------ bars in channels and ids

  ghost predicate TrimmedIDs(x: Text, db: Db) {
    forall id :: id in db.records ==> x.trim(db.records[id].modelID) == db.records[id].modelID
  }

  /** The key can be cut at another bar into a normal channel and a trimmed model id. */
  predicate CutsAt(x: Text, channel: Bytes, modelID: Bytes, j: nat) {
    var k := Key(x, channel, modelID);
    && j < |k| && k[j] == '|' && j != |x.norm(channel)|
    && x.norm(k[..j]) == k[..j] && x.trim(k[j + 1..]) == k[j + 1..] && k[j + 1..] != ""
  }

  predicate CutsElsewhere(x: Text, channel: Bytes, modelID: Bytes) {
    exists j :: 0 <= j < |Key(x, channel, modelID)| && CutsAt(x, channel, modelID, j)
  }

  /** The store with the one model that the other cut gives: the lookup finds it, and it does not match. */
  lemma BarLookupIsWrong(x: Text, channel: Bytes, modelID: Bytes, j: nat)
    requires Proper(x) && x.trim(modelID) == modelID && modelID != "" && CutsAt(x, channel, modelID, j)
    ensures var k := Key(x, channel, modelID);
      var db := Created(x, EMPTY, Model("", k[..j], k[j + 1..], false));
      && IdsSound(x, db) && ChannelSound(x, db) && TrimmedIDs(x, db) && IsPickChannel(x, db, channel, modelID, None)
      && LookupChannel(x, db, channel, modelID, None).0.Some?
      && !RightChannel(x, db, channel, modelID, LookupChannel(x, db, channel, modelID, None).0)
  {
    var k, id := Key(x, channel, modelID), DecimalNat(1);
    var m := Model("", k[..j], k[j + 1..], false);
    CreateKeeps(x, EMPTY, m);
    assert k == k[..j] + (BAR + k[j + 1..]);
    var db := Created(x, EMPTY, m);
    assert db.records == map[id := m.(id := id)] && db.channels == map[k := id];
    assert |x.norm(k[..j])| != |x.norm(channel)|;
  }

  /** A record with the key of the lookup matches it, when the key cuts in one place only. */
  lemma OneCutMatches(x: Text, m: Model, channel: Bytes, modelID: Bytes)
    requires Proper(x) && x.trim(modelID) == modelID && !CutsElsewhere(x, channel, modelID)
    requires x.trim(m.modelID) == m.modelID && Named(x, m) && KeyOf(x, m) == Key(x, channel, modelID)
    ensures MatchesChannel(x, m, channel, modelID)
  {
    var k, c, d := Key(x, channel, modelID), x.norm(channel), x.norm(m.channel);
    assert k == c + (BAR + modelID) == d + (BAR + m.modelID);
    assert k[..|d|] == d && k[|d|] == '|' && k[|d| + 1..] == m.modelID;
    assert k[..|c|] == c && k[|c| + 1..] == modelID;
    if |d| != |c| { assert CutsAt(x, channel, modelID, |d|); }
  }

  /** A lookup by channel and model id answers as a scan would in every store with sound ids, a sound index and trimmed
      model ids, if and only if its key cuts in one place only. */
  lemma BarLookupIff(x: Text, channel: Bytes, modelID: Bytes)
    requires Proper(x) && x.trim(modelID) == modelID && modelID != ""
    ensures (forall db, pick ::
        IdsSound(x, db) && ChannelSound(x, db) && TrimmedIDs(x, db) && IsPickChannel(x, db, channel, modelID, pick) ==>
          RightChannel(x, db, channel, modelID, LookupChannel(x, db, channel, modelID, pick).0))
      <==> !CutsElsewhere(x, channel, modelID)
  {
    if CutsElsewhere(x, channel, modelID) {
      var j :| 0 <= j < |Key(x, channel, modelID)| && CutsAt(x, channel, modelID, j);
      BarLookupIsWrong(x, channel, modelID, j);
    } else {
      forall db, pick | IdsSound(x, db) && ChannelSound(x, db) && TrimmedIDs(x, db) && IsPickChannel(x, db, channel, modelID, pick)
        ensures RightChannel(x, db, channel, modelID, LookupChannel(x, db, channel, modelID, pick).0)
      {
        var k := Key(x, channel, modelID);
        if Indexed(db, db.channels, k) { OneCutMatches(x, db.records[db.channels[k]], channel, modelID); }
      }
    }
  }

  // --------------------------------------------------------------------- the text functions

  /** Lower-casing of ASCII letters, `_` and space to `-`. */
  function Fold(c: char): char {
    if 'A' <= c <= 'Z' then (c as int + 32) as char else if c == '_' || c == ' ' then '-' else c
  }

  function Folded(s: Bytes): (r: Bytes)
    ensures |r| == |s| && forall i :: 0 <= i < |s| ==> r[i] == Fold(s[i])
  {
    if s == [] then [] else [Fold(s[0])] + Folded(s[1..])
  }

  /** `normalizeModelChannelKey`, on ASCII letters. */
  function Normalize(c: Bytes): Bytes { Folded(TrimSpace(c)) }

  function Standard(): Text { Text(Normalize, TrimSpace) }

  lemma FoldedSpace(s: Bytes)
    ensures SpaceSize(Folded(s)) > 0 ==> SpaceSize(s) == SpaceSize(Folded(s))
  {
  }

  lemma FoldedTrimmed(s: Bytes, f: Bytes)
    requires Trimmed(s) && f == Folded(s)
    ensures Trimmed(f)
  {
    FoldedSpace(s);
    FoldedEnd(s, f, 1);
    FoldedEnd(s, f, 2);
    FoldedEnd(s, f, 3);
  }

  lemma {:induction false} FoldedFrom(s: Bytes, k: nat)
    requires k <= |s|
    ensures Folded(s)[k..] == Folded(s[k..])
  {
    if k == 0 {
      assert s[0..] == s && Folded(s)[0..] == Folded(s);
    } else {
      FoldedFrom(s[1..], k - 1);
      assert s[1..][k - 1..] == s[k..] && Folded(s) == [Fold(s[0])] + Folded(s[1..]);
      assert Folded(s)[k..] == Folded(s[1..])[k - 1..];
    }
  }

  lemma FoldedEnd(s: Bytes, f: Bytes, n: nat)
    requires n > 0 && f == Folded(s)
    ensures EndsInSpace(f, n) ==> EndsInSpace(s, n)
  {
    if n <= |s| {
      FoldedFrom(s, |s| - n);
      FoldedSpace(s[|s| - n..]);
    }
  }

  lemma FoldedAgain(u: Bytes)
    requires Trimmed(u)
    ensures Normalize(Folded(u)) == Folded(u)
  {
    var v := Folded(u);
    FoldedTrimmed(u, v);
    TrimSpaceTrims(v);
    FoldFold(u);
  }

  lemma {:induction false} FoldFold(u: Bytes)
    ensures Folded(Folded(u)) == Folded(u)
  {
    if u != [] {
      var v := Folded(u);
      FoldFold(u[1..]);
      assert v[0] == Fold(u[0]) && v[1..] == Folded(u[1..]);
    }
  }

  lemma NormalizeTwice(c: Bytes)
    ensures Normalize(Normalize(c)) == Normalize(c)
  {
    TrimSpaceTrims(c);
    FoldedAgain(TrimSpace(c));
  }

  lemma {:induction false} TrimLeftLacks(s: Bytes, c: char)
    requires Lacks(s, c)
    ensures Lacks(TrimLeft(s), c)
  {
    if SpaceSize(s) > 0 { TrimLeftLacks(s[SpaceSize(s)..], c); }
  }

  lemma NormalizeLacks(s: Bytes)
    requires NoBar(s)
    ensures NoBar(Normalize(s))
  {
    TrimLeftLacks(s, '|');
    PrefixLacks(TrimLeft(s), TrimSpace(s), '|');
    FoldedLacks(TrimSpace(s));
  }

  lemma PrefixLacks(s: Bytes, u: Bytes, c: char)
    requires u <= s && Lacks(s, c)
    ensures Lacks(u, c)
  {
    assert forall i :: 0 <= i < |u| ==> u[i] == s[i];
  }

  lemma {:induction false} FoldedLacks(u: Bytes)
    requires NoBar(u)
    ensures NoBar(Folded(u))
  {
    if u != [] { FoldedLacks(u[1..]); }
  }

  /** What the theorems ask of the text functions holds of these. */
  lemma StandardIsProper()
    ensures Proper(Standard())
  {
    var x := Standard();
    forall c ensures x.norm(x.norm(c)) == x.norm(c) { NormalizeTwice(c); }
    forall c | NoBar(c) ensures NoBar(x.norm(c)) { NormalizeLacks(c); }
    forall s ensures x.trim(x.trim(s)) == x.trim(s) { TrimTwice(s); }
  }

  predicate IsOrdinary(s: Bytes) { forall i :: 0 <= i < |s| ==> 'a' <= s[i] <= 'z' || s[i] == '|' }

  lemma {:induction false} FoldedOrdinary(s: Bytes)
    requires IsOrdinary(s)
    ensures Folded(s) == s
  {
    if s != [] {
      assert IsOrdinary(s[1..]);
      FoldedOrdinary(s[1..]);
    }
  }

  /** Small letters and bars are normal and trimmed. */
  lemma OrdinaryText(s: Bytes)
    requires s != [] && IsOrdinary(s)
    ensures Normalize(s) == s && TrimSpace(s) == s
  {
    AsciiEndsAreTrimmed(s);
    TrimSpaceTrims(s);
    FoldedOrdinary(s);
  }

  lemma Joined(a: Bytes, b: Bytes)
    requires IsOrdinary(a) && IsOrdinary(b)
    ensures IsOrdinary(a + (BAR + b))
  {
  }

  lemma CutAfter(a: Bytes, b: Bytes)
    ensures var k, j := a + (BAR + b), |a|; k[..j] == a && k[j] == '|' && k[j + 1..] == b
  {
  }

  /** Ordinary text is left alone. */
  ghost predicate LeavesOrdinary(x: Text) {
    forall s :: s != [] && IsOrdinary(s) ==> x.norm(s) == s && x.trim(s) == s
  }

  lemma StandardLeavesOrdinary()
    ensures LeavesOrdinary(Standard())
  {
    forall s | s != [] && IsOrdinary(s) ensures Normalize(s) == s && TrimSpace(s) == s { OrdinaryText(s); }
  }

  lemma OrdinaryBars(x: Text, c: Bytes, a: Bytes, b: Bytes)
    requires LeavesOrdinary(x) && c != [] && a != [] && b != [] && IsOrdinary(c) && IsOrdinary(a) && IsOrdinary(b)
    ensures x.norm(c) == c && x.norm(c + (BAR + a)) == c + (BAR + a) && x.trim(a + BAR) == a + BAR
    ensures x.trim(a + (BAR + b)) == a + (BAR + b) && CutsAt(x, c, a + (BAR + b), |c + (BAR + a)|)
  {
    Joined(c, a);
    Joined(a, b);
    Joined(a, []);
    assert a + (BAR + []) == a + BAR;
    assert c + (BAR + (a + (BAR + b))) == (c + (BAR + a)) + (BAR + b);
    CutAfter(c + (BAR + a), b);
  }

  /** The two failures that take a bar: an update that blanks `a|` in channel `c`, and a lookup of `a|b` in channel `c`
      after a create of `b` in channel `c|a`. */
  ghost predicate BarsFail(x: Text, c: Bytes, a: Bytes, b: Bytes) {
    Fails(x, BlankOps(c, a), c, a + BAR) && Fails(x, CutOps(c + (BAR + a), b), c, a + (BAR + b))
  }

  ghost predicate Fails(x: Text, ops: seq<Op>, channel: Bytes, asked: Bytes) {
    IsRun(x, EMPTY, ops) && !ChannelLookupRight(x, Reached(x, EMPTY, ops), channel, asked)
  }

  function BlankOps(c: Bytes, a: Bytes): seq<Op> {
    [StoreCreate(Model("", c, a + BAR, false), []), StoreUpdate(Model(DecimalNat(1), c + (BAR + a), "", false), [])]
  }

  function CutOps(d: Bytes, b: Bytes): seq<Op> { [StoreCreate(Model("", d, b, false), [])] }

  lemma OrdinaryBarsFail(x: Text, c: Bytes, a: Bytes, b: Bytes)
    requires Proper(x) && LeavesOrdinary(x) && c != [] && a != [] && b != [] && IsOrdinary(c) && IsOrdinary(a) && IsOrdinary(b)
    ensures BarsFail(x, c, a, b)
  {
    OrdinaryBars(x, c, a, b);
    BlanksFind(x, c, a);
    assert c + (BAR + (a + (BAR + b))) == (c + (BAR + a)) + (BAR + b);
    CutFinds(x, c, a + (BAR + b), c + (BAR + a), b);
  }

  /** With the standard text functions both happen, for any small letters. */
  lemma BarsHappen(c: Bytes, a: Bytes, b: Bytes)
    requires c != [] && a != [] && b != [] && IsOrdinary(c) && IsOrdinary(a) && IsOrdinary(b)
    ensures BarsFail(Standard(), c, a, b)
  {
    StandardIsProper();
    StandardLeavesOrdinary();
    OrdinaryBarsFail(Standard(), c, a, b);
  }

  /** Every lookup of the pair is right. */
  ghost predicate ChannelLookupRight(x: Text, db: Db, channel: Bytes, asked: Bytes) {
    forall pick :: IsPickChannel(x, db, channel, x.trim(asked), pick) ==>
      RightChannel(x, db, channel, asked, LookupChannel(x, db, channel, asked, pick).0)
  }

  lemma BlanksFind(x: Text, c: Bytes, a: Bytes)
    requires Proper(x) && x.norm(c) == c && x.norm(c + (BAR + a)) == c + (BAR + a) && x.trim(a + BAR) == a + BAR
    ensures Fails(x, BlankOps(c, a), c, a + BAR)
  {
    BlanksHappens(x, c, a);
    var pick := SomePickChannel(x, Reached(x, EMPTY, BlankOps(c, a)), c, a + BAR);
    assert IsPickChannel(x, Reached(x, EMPTY, BlankOps(c, a)), c, a + BAR, pick);
  }

  lemma CutFinds(x: Text, c: Bytes, modelID: Bytes, d: Bytes, b: Bytes)
    requires Proper(x) && x.trim(modelID) == modelID && modelID != "" && Key(x, c, modelID) == d + (BAR + b) && CutsAt(x, c, modelID, |d|)
    ensures Fails(x, CutOps(d, b), c, modelID)
  {
    var op := StoreCreate(Model("", d, b, false), []);
    RunOne(x, op);
    CutAfter(d, b);
    BarLookupIsWrong(x, c, modelID, |d|);
    assert IsPickChannel(x, Next(x, EMPTY, op), c, modelID, None);
  }

  lemma RunOne(x: Text, a: Op)
    requires Possible(x, EMPTY, a)
    ensures IsRun(x, EMPTY, [a]) && Reached(x, EMPTY, [a]) == Next(x, EMPTY, a)
  {
    assert [a][0] == a && [a][1..] == [];
    assert IsRun(x, Next(x, EMPTY, a), []);
  }
}
