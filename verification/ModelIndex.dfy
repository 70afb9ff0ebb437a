/** The model records and their two secondary indexes: when an index agrees with a scan, and the default flag. */
module ModelIndex {
  import opened Bytes

  datatype Model = Model(id: Bytes, channel: Bytes, modelID: Bytes, isDefault: bool)

  /** The records, the index by model id, the index by channel and model id, and the id counter. */
  datatype Db = Db(records: map<Bytes, Model>, global: map<Bytes, Bytes>, channels: map<Bytes, Bytes>, next: nat)

  const EMPTY := Db(map[], map[], map[], 0)

  /** `normalizeModelChannelKey` and `strings.TrimSpace`. */
  datatype Text = Text(norm: Bytes -> Bytes, trim: Bytes -> Bytes)

  const BAR: Bytes := ['|']

  /** `modelChannelIndexKey`. */
  function Key(x: Text, channel: Bytes, modelID: Bytes): Bytes { x.norm(channel) + (BAR + x.trim(modelID)) }

  function KeyOf(x: Text, m: Model): Bytes { Key(x, m.channel, m.modelID) }

  predicate Named(x: Text, m: Model) { x.trim(m.modelID) != "" }

  predicate NoBar(s: Bytes) { Lacks(s, '|') }

  /** Normalising adds no bar and does nothing the second time; trimming likewise, and leaves the empty text alone. */
  ghost predicate Proper(x: Text) {
    && (forall c :: NoBar(c) ==> NoBar(x.norm(c))) && (forall c :: x.norm(x.norm(c)) == x.norm(c))
    && (forall s :: x.trim(x.trim(s)) == x.trim(s)) && x.trim("") == ""
  }

  // ----------------------------------------------------------------------------- operations

  /** `CreateModel` once the counter has given the id: the global entry is kept, the channel entry overwritten. */
  function Inserted(x: Text, db: Db, m: Model): Db {
    Db(db.records[m.id := m],
       if Named(x, m) && m.modelID !in db.global then db.global[m.modelID := m.id] else db.global,
       if Named(x, m) then db.channels[KeyOf(x, m) := m.id] else db.channels,
       db.next + 1)
  }

  /** The next id of the counter. */
  function NextID(db: Db): Bytes { DecimalNat(db.next + 1) }

  function Created(x: Text, db: Db, m: Model): Db { Inserted(x, db, m.(id := NextID(db))) }

  /** The channel index without the entry that an update leaves behind. */
  function Dropped(x: Text, db: Db, m: Model): map<Bytes, Bytes> {
    if m.id in db.records && Named(x, db.records[m.id]) && KeyOf(x, db.records[m.id]) != KeyOf(x, m) then
      db.channels - {KeyOf(x, db.records[m.id])}
    else db.channels
  }

  /** `UpdateModel`. */
  function Updated(x: Text, db: Db, m: Model): Db {
    if m.id == "" then db
    else
      Db(db.records[m.id := m],
         if Named(x, m) && (m.modelID !in db.global || db.global[m.modelID] == "" || db.global[m.modelID] == m.id) then
           db.global[m.modelID := m.id]
         else db.global,
         if Named(x, m) then Dropped(x, db, m)[KeyOf(x, m) := m.id] else Dropped(x, db, m),
         db.next)
  }

  /** `DeleteModel`: the channel entry goes whoever it points to. */
  function Deleted(x: Text, db: Db, id: Bytes): Db {
    if id == "" then db
    else if id !in db.records || !Named(x, db.records[id]) then db.(records := db.records - {id})
    else
      var m := db.records[id];
      Db(db.records - {id},
         if m.modelID in db.global && db.global[m.modelID] == id then db.global - {m.modelID} else db.global,
         db.channels - {KeyOf(x, m)},
         db.next)
  }

  // ------------------------------------------------------------------------------ soundness

  /** Every record sits under its own id, and only a nameless one under an id the counter has still to give out. */
  ghost predicate IdsSound(x: Text, db: Db) {
    && (forall id :: id in db.records ==> id != "" && db.records[id].id == id)
    && (forall n: nat :: n > db.next && DecimalNat(n) in db.records ==> !Named(x, db.records[DecimalNat(n)]))
  }

  /** Every channel entry points to a live model with exactly that key. */
  ghost predicate ChannelSound(x: Text, db: Db) {
    forall k :: k in db.channels ==>
      db.channels[k] in db.records && Named(x, db.records[db.channels[k]]) && KeyOf(x, db.records[db.channels[k]]) == k
  }

  /** Every global entry points to a live model with exactly that model id. */
  ghost predicate GlobalSound(x: Text, db: Db) {
    forall k :: k in db.global ==> x.trim(k) != "" && db.global[k] in db.records && db.records[db.global[k]].modelID == k
  }

  /** The update is of a nameless model, or not under an id the counter has still to give out. */
  ghost predicate Settled(x: Text, db: Db, m: Model) {
    Named(x, m) ==> forall n: nat :: n > db.next ==> DecimalNat(n) != m.id
  }

  /** The update takes its model id away from the model the global index has under it. */
  predicate Strands(db: Db, m: Model) {
    m.id in db.records && (var k := db.records[m.id].modelID; k != m.modelID && k in db.global && db.global[k] == m.id)
  }

  lemma InsertKeeps(x: Text, db: Db, m: Model)
    requires m.id in db.records ==> !Named(x, db.records[m.id])
    ensures ChannelSound(x, db) ==> ChannelSound(x, Inserted(x, db, m))
    ensures GlobalSound(x, db) ==> GlobalSound(x, Inserted(x, db, m))
  {
  }

  lemma CreateKeeps(x: Text, db: Db, m: Model)
    requires IdsSound(x, db)
    ensures IdsSound(x, Created(x, db, m))
    ensures ChannelSound(x, db) ==> ChannelSound(x, Created(x, db, m))
    ensures GlobalSound(x, db) ==> GlobalSound(x, Created(x, db, m))
  {
    var id, t := NextID(db), Created(x, db, m);
    InsertKeeps(x, db, m.(id := id));
    forall n: nat | n > db.next + 1 && DecimalNat(n) in t.records ensures !Named(x, t.records[DecimalNat(n)]) {
      DecimalNatInjective(n, db.next + 1);
    }
  }

  lemma DecimalNatInjective(m: nat, n: nat)
    ensures DecimalNat(m) == DecimalNat(n) ==> m == n
  {
    DecimalNatValue(m);
    DecimalNatValue(n);
  }

  /** The update takes the model id away but leaves the index key the same: no entry is dropped or written. */
  predicate Blanks(x: Text, db: Db, m: Model) {
    m.id in db.records && !Named(x, m) && (var k := KeyOf(x, m); k in db.channels && db.channels[k] == m.id)
  }

  /** An entry that the update does not write comes from before, and is not the updated model's own. */
  lemma UpdatedEntry(x: Text, db: Db, m: Model, k: Bytes)
    requires IdsSound(x, db) && ChannelSound(x, db) && m.id != "" && k in Updated(x, db, m).channels && !Blanks(x, db, m)
    ensures var t := Updated(x, db, m);
      if Named(x, m) && k == KeyOf(x, m) then t.channels[k] == m.id
      else k in db.channels && t.channels[k] == db.channels[k] && db.channels[k] != m.id
  {
    if !(Named(x, m) && k == KeyOf(x, m)) {
      assert k in Dropped(x, db, m);
    }
  }

  /** An update leaves the channel index sound exactly when it does not blank a model id under the same key. */
  lemma UpdateKeepsChannelsIff(x: Text, db: Db, m: Model)
    requires IdsSound(x, db) && ChannelSound(x, db) && m.id != ""
    ensures ChannelSound(x, Updated(x, db, m)) <==> !Blanks(x, db, m)
  {
    var t := Updated(x, db, m);
    if Blanks(x, db, m) {
      var k := KeyOf(x, m);
      assert k in t.channels && t.channels[k] == m.id && t.records[m.id] == m;
    } else {
      forall k | k in t.channels
        ensures t.channels[k] in t.records && Named(x, t.records[t.channels[k]]) && KeyOf(x, t.records[t.channels[k]]) == k
      {
        UpdatedEntry(x, db, m, k);
      }
    }
  }

  lemma UpdateKeepsIds(x: Text, db: Db, m: Model)
    requires IdsSound(x, db) && Settled(x, db, m)
    ensures IdsSound(x, Updated(x, db, m))
  {
  }

  /** An update leaves the global index sound exactly when it does not strand an entry. */
  lemma UpdateKeepsGlobalIff(x: Text, db: Db, m: Model)
    requires IdsSound(x, db) && GlobalSound(x, db) && m.id != ""
    ensures GlobalSound(x, Updated(x, db, m)) <==> !Strands(db, m)
  {
    var t := Updated(x, db, m);
    if Strands(db, m) {
      var k := db.records[m.id].modelID;
      assert k in t.global && t.global[k] == m.id;
    }
  }

  lemma UpdateStep(x: Text, db: Db, m: Model)
    requires IdsSound(x, db) && ChannelSound(x, db) && Settled(x, db, m) && !Blanks(x, db, m)
    ensures IdsSound(x, Updated(x, db, m)) && ChannelSound(x, Updated(x, db, m))
    ensures GlobalSound(x, db) && !Strands(db, m) ==> GlobalSound(x, Updated(x, db, m))
  {
    if m.id != "" {
      UpdateKeepsIds(x, db, m);
      UpdateKeepsChannelsIff(x, db, m);
      if GlobalSound(x, db) { UpdateKeepsGlobalIff(x, db, m); }
    }
  }

  lemma DeleteKeeps(x: Text, db: Db, id: Bytes)
    requires IdsSound(x, db)
    ensures IdsSound(x, Deleted(x, db, id))
    ensures ChannelSound(x, db) ==> ChannelSound(x, Deleted(x, db, id))
    ensures GlobalSound(x, db) ==> GlobalSound(x, Deleted(x, db, id))
  {
  }

  // ------------------------------------------------------------------------------- lookups

  predicate MatchesGlobal(m: Model, modelID: Bytes) { m.modelID == modelID }

  predicate MatchesChannel(x: Text, m: Model, channel: Bytes, modelID: Bytes) {
    x.norm(m.channel) == x.norm(channel) && m.modelID == modelID
  }

  /** Channels hold no bar; model ids are trimmed. */
  ghost predicate Plain(x: Text, db: Db) {
    && Proper(x)
    && (forall id :: id in db.records ==> NoBar(db.records[id].channel) && x.trim(db.records[id].modelID) == db.records[id].modelID)
  }

  /** Equal keys mean equal channels, as normalised, and equal model ids. */
  lemma KeysMatch(x: Text, db: Db, id: Bytes, channel: Bytes, modelID: Bytes)
    requires Plain(x, db) && id in db.records && NoBar(channel) && x.trim(modelID) == modelID
    ensures KeyOf(x, db.records[id]) == Key(x, channel, modelID) <==> MatchesChannel(x, db.records[id], channel, modelID)
  {
    var m := db.records[id];
    if KeyOf(x, m) == Key(x, channel, modelID) {
      SplitsAt('|', x.norm(m.channel), x.trim(m.modelID), x.norm(channel), x.trim(modelID));
    }
  }

  /** With plain channels a key tells whether the model id is blank: no update blanks one under the same key. */
  lemma PlainNeverBlanks(x: Text, db: Db, m: Model)
    requires Plain(x, db) && ChannelSound(x, db) && NoBar(m.channel)
    ensures !Blanks(x, db, m)
  {
    if m.id in db.records && KeyOf(x, m) in db.channels && db.channels[KeyOf(x, m)] == m.id {
      var p := db.records[m.id];
      SplitsAt('|', x.norm(p.channel), x.trim(p.modelID), x.norm(m.channel), x.trim(m.modelID));
    }
  }

  /** The first match of a scan: some matching model, or none when none matches. */
  ghost predicate IsPickGlobal(db: Db, modelID: Bytes, pick: Option<Bytes>) {
    if pick.Some? then pick.value in db.records && MatchesGlobal(db.records[pick.value], modelID)
    else forall id :: id in db.records ==> !MatchesGlobal(db.records[id], modelID)
  }

  ghost predicate IsPickChannel(x: Text, db: Db, channel: Bytes, modelID: Bytes, pick: Option<Bytes>) {
    if pick.Some? then pick.value in db.records && MatchesChannel(x, db.records[pick.value], channel, modelID)
    else forall id :: id in db.records ==> !MatchesChannel(x, db.records[id], channel, modelID)
  }

  ghost function SomePickGlobal(db: Db, modelID: Bytes): (pick: Option<Bytes>)
    ensures IsPickGlobal(db, modelID, pick)
  {
    if id :| id in db.records && MatchesGlobal(db.records[id], modelID) then Some(id) else None
  }

  ghost function SomePickChannel(x: Text, db: Db, channel: Bytes, modelID: Bytes): (pick: Option<Bytes>)
    ensures IsPickChannel(x, db, channel, modelID, pick)
  {
    if id :| id in db.records && MatchesChannel(x, db.records[id], channel, modelID) then Some(id) else None
  }

  predicate Indexed(db: Db, index: map<Bytes, Bytes>, key: Bytes) { key in index && index[key] != "" && index[key] in db.records }

  /** `GetModelByModelID`: the indexed model, else the scan's first match, which repairs the index. */
  function LookupGlobal(x: Text, db: Db, asked: Bytes, pick: Option<Bytes>): (Option<Model>, Db)
    requires pick.Some? ==> pick.value in db.records
  {
    var modelID := x.trim(asked);
    if modelID == "" then (None, db)
    else if Indexed(db, db.global, modelID) then (Some(db.records[db.global[modelID]]), db)
    else if pick.Some? then
      (Some(db.records[pick.value]), db.(global := db.global[modelID := db.records[pick.value].id]))
    else (None, db)
  }

  /** `GetModelByChannelAndModelID`. */
  function LookupChannel(x: Text, db: Db, channel: Bytes, asked: Bytes, pick: Option<Bytes>): (Option<Model>, Db)
    requires pick.Some? ==> pick.value in db.records
  {
    var modelID := x.trim(asked);
    var key := Key(x, channel, modelID);
    if modelID == "" then (None, db)
    else if Indexed(db, db.channels, key) then (Some(db.records[db.channels[key]]), db)
    else if pick.Some? then
      (Some(db.records[pick.value]), db.(channels := db.channels[key := db.records[pick.value].id]))
    else (None, db)
  }

  predicate IsRecord(db: Db, m: Model) { m.id in db.records && db.records[m.id] == m }

  /** The answer a scan would give: a model when one matches, and one that does. */
  ghost predicate RightGlobal(x: Text, db: Db, asked: Bytes, r: Option<Model>) {
    && (r.Some? <==> x.trim(asked) != "" && exists id :: id in db.records && MatchesGlobal(db.records[id], x.trim(asked)))
    && (r.Some? ==> IsRecord(db, r.value) && MatchesGlobal(r.value, x.trim(asked)))
  }

  ghost predicate RightChannel(x: Text, db: Db, channel: Bytes, asked: Bytes, r: Option<Model>) {
    && (r.Some? <==> x.trim(asked) != "" && exists id :: id in db.records && MatchesChannel(x, db.records[id], channel, x.trim(asked)))
    && (r.Some? ==> IsRecord(db, r.value) && MatchesChannel(x, r.value, channel, x.trim(asked)))
  }

  /** With a sound index a lookup answers as a scan would, and a repair keeps the index sound. */
  lemma GlobalIsRight(x: Text, db: Db, asked: Bytes, pick: Option<Bytes>)
    requires Proper(x) && IdsSound(x, db) && GlobalSound(x, db) && IsPickGlobal(db, x.trim(asked), pick)
    ensures var (r, t) := LookupGlobal(x, db, asked, pick); RightGlobal(x, db, asked, r) && GlobalSound(x, t)
  {
  }

  lemma ChannelIsRight(x: Text, db: Db, channel: Bytes, asked: Bytes, pick: Option<Bytes>)
    requires IdsSound(x, db) && ChannelSound(x, db) && Plain(x, db) && NoBar(channel)
    requires IsPickChannel(x, db, channel, x.trim(asked), pick)
    ensures RightChannel(x, db, channel, asked, LookupChannel(x, db, channel, asked, pick).0)
  {
    var modelID := x.trim(asked);
    var key := Key(x, channel, modelID);
    if modelID != "" && Indexed(db, db.channels, key) { KeysMatch(x, db, db.channels[key], channel, modelID); }
  }

  /** A repair writes the key of the model found, whatever the channel. */
  lemma RepairKeeps(x: Text, db: Db, channel: Bytes, asked: Bytes, pick: Option<Bytes>)
    requires Proper(x) && IdsSound(x, db) && ChannelSound(x, db) && IsPickChannel(x, db, channel, x.trim(asked), pick)
    ensures ChannelSound(x, LookupChannel(x, db, channel, asked, pick).1)
  {
    var modelID := x.trim(asked);
    if modelID != "" && pick.Some? {
      var m := db.records[pick.value];
      assert m.modelID == modelID && x.norm(m.channel) == x.norm(channel);
      assert KeyOf(x, m) == Key(x, channel, modelID) && Named(x, m);
    }
  }

  // ------------------------------------------------------------------------------- defaults

  predicate IsDefaultOf(db: Db, id: Bytes, channel: Bytes) {
    id in db.records && db.records[id].isDefault && db.records[id].channel == channel
  }

  /** At most one model per exact channel string is the default. */
  predicate OneDefault(db: Db) {
    forall i, j :: i in db.records && j in db.records && IsDefaultOf(db, i, db.records[j].channel) && IsDefaultOf(db, j, db.records[j].channel) ==> i == j
  }

  /** Model `id` is a default of the channel and is to be cleared. */
  predicate ToClear(db: Db, id: Bytes, channel: Bytes, keep: Bytes) {
    IsDefaultOf(db, id, channel) && id != keep
  }

  function ClearOne(x: Text, db: Db, id: Bytes, channel: Bytes, keep: Bytes): Db {
    if ToClear(db, id, channel, keep) then Updated(x, db, db.records[id].(isDefault := false)) else db
  }

  /** The loop that clears the default flag of the other models of a channel. */
  function Cleared(x: Text, db: Db, ids: seq<Bytes>, channel: Bytes, keep: Bytes): Db {
    if ids == [] then db
    else ClearOne(x, Cleared(x, db, ids[..|ids| - 1], channel, keep), ids[|ids| - 1], channel, keep)
  }

  /** Clearing changes nothing but flags: records keep their ids, channels and model ids. */
  predicate SameButFlags(a: Db, b: Db) {
    && a.records.Keys == b.records.Keys && a.next == b.next
    && (forall id :: id in a.records ==> b.records[id] == a.records[id].(isDefault := b.records[id].isDefault))
    && (forall id :: id in a.records && b.records[id].isDefault ==> a.records[id].isDefault)
  }

  lemma ClearOneFlags(x: Text, db: Db, id: Bytes, channel: Bytes, keep: Bytes)
    requires IdsSound(x, db)
    ensures var t := ClearOne(x, db, id, channel, keep); IdsSound(x, t) && SameButFlags(db, t) && !ToClear(t, id, channel, keep)
  {
  }

  lemma ClearOneIndexes(x: Text, db: Db, id: Bytes, channel: Bytes, keep: Bytes)
    requires IdsSound(x, db)
    ensures ChannelSound(x, db) ==> ChannelSound(x, ClearOne(x, db, id, channel, keep))
    ensures GlobalSound(x, db) ==> GlobalSound(x, ClearOne(x, db, id, channel, keep))
  {
    if ToClear(db, id, channel, keep) {
      var m := db.records[id].(isDefault := false);
      if ChannelSound(x, db) {
        assert !Blanks(x, db, m);
        UpdateKeepsChannelsIff(x, db, m);
      }
      if GlobalSound(x, db) { UpdateKeepsGlobalIff(x, db, m); }
    }
  }

  lemma {:induction false} ClearedKeeps(x: Text, db: Db, ids: seq<Bytes>, channel: Bytes, keep: Bytes)
    requires IdsSound(x, db)
    ensures var t := Cleared(x, db, ids, channel, keep);
      && IdsSound(x, t) && SameButFlags(db, t) && (forall i :: i in ids ==> !ToClear(t, i, channel, keep))
      && (ChannelSound(x, db) ==> ChannelSound(x, t)) && (GlobalSound(x, db) ==> GlobalSound(x, t))
  {
    if ids != [] {
      var front, last := ids[..|ids| - 1], ids[|ids| - 1];
      ClearedKeeps(x, db, front, channel, keep);
      var f := Cleared(x, db, front, channel, keep);
      ClearOneFlags(x, f, last, channel, keep);
      ClearOneIndexes(x, f, last, channel, keep);
      forall i | i in ids ensures !ToClear(ClearOne(x, f, last, channel, keep), i, channel, keep) {
        if i != last { assert i in front; }
      }
    }
  }

  /** `Store.CreateModel` over a listing of the models. */
  function StoreCreated(x: Text, db: Db, ids: seq<Bytes>, m: Model): Db {
    Created(x, if m.isDefault then Cleared(x, db, ids, m.channel, "") else db, m)
  }

  /** `Store.UpdateModel` over a listing of the models. */
  function StoreUpdated(x: Text, db: Db, ids: seq<Bytes>, m: Model): Db {
    Updated(x, if m.isDefault then Cleared(x, db, ids, m.channel, m.id) else db, m)
  }

  /** Every model is listed. */
  predicate Lists(db: Db, ids: seq<Bytes>) { forall id :: id in db.records ==> id in ids }

  /** Once the others of its channel are cleared a model may become the default. */
  lemma PutKeepsOneDefault(db: Db, t: Db, m: Model, id: Bytes)
    requires OneDefault(db) && t.records == db.records[id := m]
    requires m.isDefault ==> forall i :: i in db.records && i != id ==> !IsDefaultOf(db, i, m.channel)
    ensures OneDefault(t)
  {
  }

  lemma ClearedKeepsOneDefault(x: Text, db: Db, ids: seq<Bytes>, channel: Bytes, keep: Bytes)
    requires IdsSound(x, db) && OneDefault(db) && Lists(db, ids)
    ensures var t := Cleared(x, db, ids, channel, keep);
      && IdsSound(x, t) && t.next == db.next && OneDefault(t) && forall i :: i in t.records && i != keep ==> !IsDefaultOf(t, i, channel)
  {
    ClearedKeeps(x, db, ids, channel, keep);
    var t := Cleared(x, db, ids, channel, keep);
    forall i | i in t.records && i != keep ensures !IsDefaultOf(t, i, channel) { assert !ToClear(t, i, channel, keep); }
    forall i, j | i in t.records && j in t.records && IsDefaultOf(t, i, t.records[j].channel) && IsDefaultOf(t, j, t.records[j].channel)
      ensures i == j
    {
      assert IsDefaultOf(db, i, db.records[j].channel) && IsDefaultOf(db, j, db.records[j].channel);
    }
  }

  /** Both operations of the store keep at most one default per channel. */
  lemma CreateKeepsOneDefault(x: Text, db: Db, ids: seq<Bytes>, m: Model)
    requires IdsSound(x, db) && OneDefault(db) && (m.isDefault ==> Lists(db, ids))
    ensures OneDefault(StoreCreated(x, db, ids, m))
  {
    if m.isDefault { ClearedKeepsOneDefault(x, db, ids, m.channel, ""); }
    var c := if m.isDefault then Cleared(x, db, ids, m.channel, "") else db;
    var id := NextID(db);
    PutKeepsOneDefault(c, Created(x, c, m), m.(id := id), id);
  }

  lemma UpdateKeepsOneDefault(x: Text, db: Db, ids: seq<Bytes>, m: Model)
    requires IdsSound(x, db) && OneDefault(db) && (m.isDefault ==> Lists(db, ids))
    ensures OneDefault(StoreUpdated(x, db, ids, m))
  {
    if m.isDefault { ClearedKeepsOneDefault(x, db, ids, m.channel, m.id); }
    var c := if m.isDefault then Cleared(x, db, ids, m.channel, m.id) else db;
    if m.id != "" { PutKeepsOneDefault(c, Updated(x, c, m), m, m.id); }
  }

  /** The record once the defaults of a channel are cleared. */
  function WithoutFlag(m: Model, clear: bool): Model { if clear then m.(isDefault := false) else m }

  /** Exactly the listed defaults of the channel lose their flag, and nothing else changes in any record. */
  lemma {:induction false} ClearedFlags(x: Text, db: Db, ids: seq<Bytes>, channel: Bytes, keep: Bytes)
    requires IdsSound(x, db)
    ensures var t := Cleared(x, db, ids, channel, keep);
      && t.records.Keys == db.records.Keys && t.next == db.next
      && forall id :: id in db.records ==>
           t.records[id] == WithoutFlag(db.records[id], id in ids && id != keep && db.records[id].channel == channel)
  {
    if ids != [] {
      var front, last := ids[..|ids| - 1], ids[|ids| - 1];
      ClearedFlags(x, db, front, channel, keep);
      ClearedKeeps(x, db, front, channel, keep);
      var f, t := Cleared(x, db, front, channel, keep), Cleared(x, db, ids, channel, keep);
      assert ids == front + [last];
      assert t == ClearOne(x, f, last, channel, keep);
      forall id | id in db.records
        ensures id in t.records && t.records[id] == WithoutFlag(db.records[id], id in ids && id != keep && db.records[id].channel == channel)
      {
        assert id in ids <==> id in front || id == last;
      }
    }
  }

  /** Creating a default takes the flag from the other models of exactly its channel; no other record changes. */
  lemma CreateFlags(x: Text, db: Db, ids: seq<Bytes>, m: Model)
    requires IdsSound(x, db) && (m.isDefault ==> Lists(db, ids))
    ensures var t, id := StoreCreated(x, db, ids, m), DecimalNat(db.next + 1);
      && t.records.Keys == db.records.Keys + {id} && t.records[id] == m.(id := id)
      && forall i :: i in db.records && i != id ==>
           t.records[i] == WithoutFlag(db.records[i], m.isDefault && db.records[i].channel == m.channel)
  {
    if m.isDefault { ClearedFlags(x, db, ids, m.channel, ""); }
  }

  /** So does updating one. */
  lemma UpdateFlags(x: Text, db: Db, ids: seq<Bytes>, m: Model)
    requires IdsSound(x, db) && (m.isDefault ==> Lists(db, ids))
    ensures var t := StoreUpdated(x, db, ids, m);
      && t.records.Keys == db.records.Keys + (if m.id == "" then {} else {m.id}) && (m.id != "" ==> t.records[m.id] == m)
      && forall i :: i in db.records && i != m.id ==>
           t.records[i] == WithoutFlag(db.records[i], m.isDefault && db.records[i].channel == m.channel)
  {
    if m.isDefault { ClearedFlags(x, db, ids, m.channel, m.id); }
  }

  // ------------------------------------------------------------------------------- the class

  class ModelStore {
    const x: Text
    var records: map<Bytes, Model>
    var modelIDMap: map<Bytes, Bytes>
    var channelModelIDMap: map<Bytes, Bytes>
    var nextID: nat

    function Abs(): Db
      reads this
    {
      Db(records, modelIDMap, channelModelIDMap, nextID)
    }

    constructor (x: Text)
      ensures Abs() == EMPTY && this.x == x
    {
      this.x := x;
      records, modelIDMap, channelModelIDMap, nextID := map[], map[], map[], 0;
    }

    method CreateModel(m0: Model) returns (m: Model)
      modifies this
      ensures Abs() == Created(x, old(Abs()), m0) && m == m0.(id := NextID(old(Abs())))
    {
      m := m0.(id := DecimalNat(nextID + 1));
      Insert(m);
    }

    method Insert(m: Model)
      modifies this
      ensures Abs() == Inserted(x, old(Abs()), m)
    {
      nextID := nextID + 1;
      records := records[m.id := m];
      if x.trim(m.modelID) != "" {
        if m.modelID !in modelIDMap { modelIDMap := modelIDMap[m.modelID := m.id]; }
        channelModelIDMap := channelModelIDMap[KeyOf(x, m) := m.id];
      }
    }

    method UpdateModel(m: Model) returns (ok: bool)
      modifies this
      ensures ok == (m.id != "") && Abs() == Updated(x, old(Abs()), m)
    {
      if m.id == "" { return false; }
      var prev := if m.id in records then Some(records[m.id]) else None;
      records := records[m.id := m];
      if prev.Some? && x.trim(prev.value.modelID) != "" && KeyOf(x, prev.value) != KeyOf(x, m) {
        channelModelIDMap := channelModelIDMap - {KeyOf(x, prev.value)};
      }
      if x.trim(m.modelID) != "" {
        var current := if m.modelID in modelIDMap then modelIDMap[m.modelID] else "";
        if current == "" || current == m.id { modelIDMap := modelIDMap[m.modelID := m.id]; }
        channelModelIDMap := channelModelIDMap[KeyOf(x, m) := m.id];
      }
      return true;
    }

    method DeleteModel(id: Bytes)
      modifies this
      ensures Abs() == Deleted(x, old(Abs()), id)
    {
      if id == "" { return; }
      var m := if id in records then Some(records[id]) else None;
      records := records - {id};
      if m.Some? && x.trim(m.value.modelID) != "" {
        if m.value.modelID in modelIDMap && modelIDMap[m.value.modelID] == id { modelIDMap := modelIDMap - {m.value.modelID}; }
        channelModelIDMap := channelModelIDMap - {KeyOf(x, m.value)};
      }
    }

    /** The ids of all models, each once. */
    method ListIDs() returns (ids: seq<Bytes>)
      ensures forall id :: id in ids <==> id in records
    {
      ids := [];
      var todo := records.Keys;
      while todo != {}
        invariant todo <= records.Keys && forall id :: id in ids <==> id in records && id !in todo
        decreases todo
      {
        var id :| id in todo;
        ids := ids + [id];
        todo := todo - {id};
      }
    }

    /** The scan of `GetModelByModelID`. */
    method ScanByModelID(modelID: Bytes) returns (r: Option<Model>)
      ensures r.Some? ==> exists id :: id in records && records[id] == r.value && MatchesGlobal(r.value, modelID)
      ensures r.None? ==> forall id :: id in records ==> !MatchesGlobal(records[id], modelID)
    {
      var ids := ListIDs();
      for i := 0 to |ids|
        invariant forall j :: 0 <= j < i ==> !MatchesGlobal(records[ids[j]], modelID)
      {
        if MatchesGlobal(records[ids[i]], modelID) { return Some(records[ids[i]]); }
      }
      return None;
    }

    /** `GetModelByModelID`: the lookup function, with some first match of the scan. */
    method GetModelByModelID(asked: Bytes) returns (r: Option<Model>)
      requires Proper(x)
      modifies `modelIDMap
      ensures exists pick :: IsPickGlobal(old(Abs()), x.trim(asked), pick) && (r, Abs()) == LookupGlobal(x, old(Abs()), asked, pick)
      ensures IdsSound(x, old(Abs())) && GlobalSound(x, old(Abs())) ==> GlobalSound(x, Abs()) && RightGlobal(x, old(Abs()), asked, r)
    {
      var modelID := x.trim(asked);
      ghost var pick := SomePickGlobal(Abs(), modelID);
      if modelID == "" {
        r := None;
      } else if modelID in modelIDMap && modelIDMap[modelID] != "" && modelIDMap[modelID] in records {
        r := Some(records[modelIDMap[modelID]]);
      } else {
        r := ScanByModelID(modelID);
        if r.Some? {
          ghost var id :| id in records && records[id] == r.value;
          pick := Some(id);
          modelIDMap := modelIDMap[modelID := r.value.id];
        } else {
          pick := None;
        }
      }
      assert IsPickGlobal(old(Abs()), modelID, pick) && (r, Abs()) == LookupGlobal(x, old(Abs()), asked, pick);
      if IdsSound(x, old(Abs())) && GlobalSound(x, old(Abs())) { GlobalIsRight(x, old(Abs()), asked, pick); }
    }

    /** The scan of `GetModelByChannelAndModelID`. */
    method ScanByChannel(channel: Bytes, modelID: Bytes) returns (r: Option<Model>)
      ensures r.Some? ==> exists id :: id in records && records[id] == r.value && MatchesChannel(x, r.value, channel, modelID)
      ensures r.None? ==> forall id :: id in records ==> !MatchesChannel(x, records[id], channel, modelID)
    {
      var ids := ListIDs();
      for i := 0 to |ids|
        invariant forall j :: 0 <= j < i ==> !MatchesChannel(x, records[ids[j]], channel, modelID)
      {
        if MatchesChannel(x, records[ids[i]], channel, modelID) { return Some(records[ids[i]]); }
      }
      return None;
    }

    /** `GetModelByChannelAndModelID`, likewise; the answer is right for channels without a bar and trimmed model ids. */
    method GetModelByChannelAndModelID(channel: Bytes, asked: Bytes) returns (r: Option<Model>)
      requires Proper(x)
      modifies `channelModelIDMap
      ensures exists pick :: IsPickChannel(x, old(Abs()), channel, x.trim(asked), pick) &&
                (r, Abs()) == LookupChannel(x, old(Abs()), channel, asked, pick)
      ensures IdsSound(x, old(Abs())) && ChannelSound(x, old(Abs())) ==> ChannelSound(x, Abs())
      ensures IdsSound(x, old(Abs())) && ChannelSound(x, old(Abs())) && Plain(x, old(Abs())) && NoBar(channel) ==> RightChannel(x, old(Abs()), channel, asked, r)
    {
      var modelID := x.trim(asked);
      var key := Key(x, channel, modelID);
      ghost var pick := SomePickChannel(x, Abs(), channel, modelID);
      if modelID == "" {
        r := None;
      } else if key in channelModelIDMap && channelModelIDMap[key] != "" && channelModelIDMap[key] in records {
        r := Some(records[channelModelIDMap[key]]);
      } else {
        r := ScanByChannel(channel, modelID);
        if r.Some? {
          ghost var id :| id in records && records[id] == r.value;
          pick := Some(id);
          channelModelIDMap := channelModelIDMap[key := r.value.id];
        } else {
          pick := None;
        }
      }
      assert IsPickChannel(x, old(Abs()), channel, modelID, pick) && (r, Abs()) == LookupChannel(x, old(Abs()), channel, asked, pick);
      if IdsSound(x, old(Abs())) && ChannelSound(x, old(Abs())) {
        RepairKeeps(x, old(Abs()), channel, asked, pick);
        if Plain(x, old(Abs())) && NoBar(channel) { ChannelIsRight(x, old(Abs()), channel, asked, pick); }
      }
    }

    /** The loop of `Store.CreateModel` and `Store.UpdateModel` over the listed models. */
    method ClearDefaults(ids: seq<Bytes>, channel: Bytes, keep: Bytes)
      modifies this
      ensures Abs() == Cleared(x, old(Abs()), ids, channel, keep)
    {
      for i := 0 to |ids|
        invariant Abs() == Cleared(x, old(Abs()), ids[..i], channel, keep)
      {
        assert ids[..i + 1][..i] == ids[..i];
        if ids[i] in records {
          var other := records[ids[i]];
          if other.channel == channel && ids[i] != keep && other.isDefault {
            var _ := UpdateModel(other.(isDefault := false));
          }
        }
      }
      assert ids[..|ids|] == ids;
    }

    /** `Store.CreateModel`. */
    method StoreCreateModel(m0: Model)
      modifies this
      ensures IdsSound(x, old(Abs())) && OneDefault(old(Abs())) ==> OneDefault(Abs())
      ensures exists ids :: Lists(old(Abs()), ids) && Abs() == StoreCreated(x, old(Abs()), ids, m0)
    {
      var ids := ListIDs();
      if m0.isDefault { ClearDefaults(ids, m0.channel, ""); }
      var _ := CreateModel(m0);
      assert Lists(old(Abs()), ids) && Abs() == StoreCreated(x, old(Abs()), ids, m0);
      if IdsSound(x, old(Abs())) && OneDefault(old(Abs())) { CreateKeepsOneDefault(x, old(Abs()), ids, m0); }
    }

    /** `Store.UpdateModel`. */
    method StoreUpdateModel(m: Model) returns (ok: bool)
      modifies this
      ensures IdsSound(x, old(Abs())) && OneDefault(old(Abs())) ==> OneDefault(Abs())
      ensures exists ids :: Lists(old(Abs()), ids) && Abs() == StoreUpdated(x, old(Abs()), ids, m)
    {
      var ids := ListIDs();
      if m.isDefault { ClearDefaults(ids, m.channel, m.id); }
      ok := UpdateModel(m);
      assert Lists(old(Abs()), ids) && Abs() == StoreUpdated(x, old(Abs()), ids, m);
      if IdsSound(x, old(Abs())) && OneDefault(old(Abs())) { UpdateKeepsOneDefault(x, old(Abs()), ids, m); }
    }
  }
}
