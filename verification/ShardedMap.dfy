/** The sharded map: sixteen maps that are one. */
module ShardedMap {
  import opened Bytes

  const SHARD_COUNT := 16

  // ---------------------------------------------------------------------------------- hashing

  /** `fnv1aHash`, in 32-bit arithmetic. */
  function Fnv1a(key: Bytes): bv32
  {
    if key == [] then 2166136261 else (Fnv1a(key[..|key| - 1]) ^ ((key[|key| - 1] as int % 256) as bv32)) * 16777619
  }

  /** The shard of a key. */
  function Shard(key: Bytes): (i: nat)
    ensures i < SHARD_COUNT
  {
    (Fnv1a(key) as nat) % SHARD_COUNT
  }

  // ------------------------------------------------------------------------ the map as a whole

  /** Every key sits in its own shard. */
  ghost predicate Placed<V>(shards: seq<map<Bytes, V>>) {
    |shards| == SHARD_COUNT && forall i, k :: 0 <= i < |shards| && k in shards[i] ==> Shard(k) == i
  }

  /** The first `n` shards together. */
  ghost function Union<V>(shards: seq<map<Bytes, V>>, n: nat): map<Bytes, V>
    requires n <= |shards|
  {
    if n == 0 then map[] else Union(shards, n - 1) + shards[n - 1]
  }

  ghost function Whole<V>(shards: seq<map<Bytes, V>>): map<Bytes, V> { Union(shards, |shards|) }

  lemma {:induction false} UnionHas<V>(shards: seq<map<Bytes, V>>, n: nat, k: Bytes)
    requires Placed(shards) && n <= |shards|
    ensures k in Union(shards, n) <==> Shard(k) < n && k in shards[Shard(k)]
    ensures k in Union(shards, n) ==> Union(shards, n)[k] == shards[Shard(k)][k]
  {
    if n > 0 { UnionHas(shards, n - 1, k); }
  }

  /** A key is in the whole exactly when it is in its shard, with the same value. */
  lemma WholeHas<V>(shards: seq<map<Bytes, V>>)
    requires Placed(shards)
    ensures forall k :: k in Whole(shards) <==> k in shards[Shard(k)]
    ensures forall k :: k in Whole(shards) ==> Whole(shards)[k] == shards[Shard(k)][k]
  {
    forall k ensures (k in Whole(shards) <==> k in shards[Shard(k)]) && (k in Whole(shards) ==> Whole(shards)[k] == shards[Shard(k)][k]) {
      UnionHas(shards, |shards|, k);
    }
  }

  /** Sizes of disjoint maps add up. */
  lemma DisjointSize<V>(a: map<Bytes, V>, b: map<Bytes, V>)
    requires a.Keys !! b.Keys
    ensures |a + b| == |a| + |b|
  {
    assert (a + b).Keys == a.Keys + b.Keys;
    assert |a + b| == |(a + b).Keys|;
  }

  lemma {:induction false} UnionSize<V>(shards: seq<map<Bytes, V>>, n: nat)
    requires Placed(shards) && n < |shards|
    ensures |Union(shards, n + 1)| == |Union(shards, n)| + |shards[n]|
  {
    forall k | k in shards[n] ensures k !in Union(shards, n) { UnionHas(shards, n, k); }
    DisjointSize(Union(shards, n), shards[n]);
  }

  /** `shard` differs from the key's shard at the key alone. */
  ghost predicate Differs<V>(shards: seq<map<Bytes, V>>, key: Bytes, i: nat, shard: map<Bytes, V>)
    requires i < |shards|
  {
    forall k :: k != key ==> (k in shard <==> k in shards[i]) && (k in shard ==> shard[k] == shards[i][k])
  }

  lemma PutPlaced<V>(shards: seq<map<Bytes, V>>, key: Bytes, i: nat, shard: map<Bytes, V>)
    requires Placed(shards) && i == Shard(key) && Differs(shards, key, i, shard)
    ensures Placed(shards[i := shard])
  {
    var after := shards[i := shard];
    forall j, k | 0 <= j < |after| && k in after[j] ensures Shard(k) == j {
      if j == i && k != key { assert k in shards[i]; }
    }
  }

  lemma PutHas<V>(shards: seq<map<Bytes, V>>, key: Bytes, i: nat, shard: map<Bytes, V>, k: Bytes)
    requires Placed(shards) && i == Shard(key) && Differs(shards, key, i, shard)
    requires Placed(shards[i := shard])
    ensures k in Whole(shards[i := shard]) <==> if k == key then key in shard else k in Whole(shards)
    ensures k in Whole(shards[i := shard]) ==> Whole(shards[i := shard])[k] == if k == key then shard[key] else Whole(shards)[k]
  {
    var after := shards[i := shard];
    UnionHas(shards, |shards|, k);
    UnionHas(after, |after|, k);
    assert after[Shard(k)] == if Shard(k) == i then shard else shards[Shard(k)];
  }

  /** Replacing the shard of a key by one that differs at the key alone. */
  lemma PutWhole<V>(shards: seq<map<Bytes, V>>, key: Bytes, i: nat, shard: map<Bytes, V>)
    requires Placed(shards) && i == Shard(key) && Differs(shards, key, i, shard)
    ensures Placed(shards[i := shard])
    ensures Whole(shards[i := shard]) == if key in shard then Whole(shards)[key := shard[key]] else Whole(shards) - {key}
  {
    PutPlaced(shards, key, i, shard);
    var w, m := Whole(shards[i := shard]), Whole(shards);
    forall k ensures k in w <==> (if k == key then key in shard else k in m) { PutHas(shards, key, i, shard, k); }
    forall k | k in w ensures w[k] == if k == key then shard[key] else m[k] { PutHas(shards, key, i, shard, k); }
    if key in shard { assert w == m[key := shard[key]]; } else { assert w == m - {key}; }
  }

  function Kept<V>(m: map<Bytes, V>, drop: (Bytes, V) -> bool): map<Bytes, V> {
    map k | k in m && !drop(k, m[k]) :: m[k]
  }

  /** Sweeping each shard sweeps the whole. */
  lemma SweepWhole<V>(before: seq<map<Bytes, V>>, after: seq<map<Bytes, V>>, drop: (Bytes, V) -> bool)
    requires Placed(before) && |after| == |before| && forall j :: 0 <= j < |after| ==> after[j] == Kept(before[j], drop)
    ensures Placed(after) && Whole(after) == Kept(Whole(before), drop)
  {
    forall j, k | 0 <= j < |after| && k in after[j] ensures Shard(k) == j { assert k in before[j]; }
    WholeHas(before);
    WholeHas(after);
    forall k ensures k in Whole(after) <==> k in Kept(Whole(before), drop) {
      assert after[Shard(k)] == Kept(before[Shard(k)], drop);
    }
    forall k | k in Whole(after) ensures Whole(after)[k] == Kept(Whole(before), drop)[k] {
      assert after[Shard(k)] == Kept(before[Shard(k)], drop);
    }
  }

  // ------------------------------------------------------------------------------- the class

  class Sharded<V(==)> {
    const shards: array<map<Bytes, V>>

    ghost predicate Valid()
      reads shards
    {
      Placed(shards[..])
    }

    ghost function Abs(): map<Bytes, V>
      reads shards
    {
      Whole(shards[..])
    }

    constructor ()
      ensures Valid() && Abs() == map[] && fresh(shards)
    {
      shards := new map<Bytes, V>[SHARD_COUNT](_ => map[]);
      new;
      WholeHas(shards[..]);
    }

    method Get(key: Bytes) returns (r: Option<V>)
      requires Valid()
      ensures r == if key in Abs() then Some(Abs()[key]) else None
    {
      WholeHas(shards[..]);
      var shard := shards[Shard(key)];
      r := if key in shard then Some(shard[key]) else None;
    }

    /** Replaces one shard by one that differs at `key` alone. */
    method PutShard(key: Bytes, shard: map<Bytes, V>)
      requires Valid()
      requires Differs(shards[..], key, Shard(key), shard)
      modifies shards
      ensures Valid()
      ensures Abs() == if key in shard then old(Abs())[key := shard[key]] else old(Abs()) - {key}
    {
      var i := Shard(key);
      PutWhole(shards[..], key, i, shard);
      ghost var after := shards[..][i := shard];
      shards[i] := shard;
      assert shards[..] == after;
    }

    method Set(key: Bytes, value: V)
      requires Valid()
      modifies shards
      ensures Valid() && Abs() == old(Abs())[key := value]
    {
      PutShard(key, shards[Shard(key)][key := value]);
    }

    method Delete(key: Bytes)
      requires Valid()
      modifies shards
      ensures Valid() && Abs() == old(Abs()) - {key}
    {
      PutShard(key, shards[Shard(key)] - {key});
    }

    /** Reads, transforms and writes in one step; `fn` gives None to remove the key. */
    method Compute(key: Bytes, fn: Option<V> -> Option<V>) returns (was: Option<V>)
      requires Valid()
      modifies shards
      ensures Valid() && was == (if key in old(Abs()) then Some(old(Abs())[key]) else None)
      ensures Abs() == match fn(was) { case Some(v) => old(Abs())[key := v] case None => old(Abs()) - {key} }
    {
      was := Get(key);
      var now := fn(was);
      if now.Some? { Set(key, now.value); } else if was.Some? { Delete(key); }
    }

    /** The number of entries, shard by shard. */
    method Len() returns (n: nat)
      requires Valid()
      ensures n == |Abs()|
    {
      n := 0;
      for i := 0 to SHARD_COUNT
        invariant n == |Union(shards[..], i)|
      {
        UnionSize(shards[..], i);
        n := n + |shards[i]|;
      }
    }

    /** Deletes the entries that `drop` picks, shard by shard, each shard's keys in any order. */
    method RangeDelete(drop: (Bytes, V) -> bool)
      requires Valid()
      modifies shards
      ensures Valid() && Abs() == Kept(old(Abs()), drop)
    {
      ghost var before := shards[..];
      for i := 0 to SHARD_COUNT
        invariant |shards[..]| == SHARD_COUNT
        invariant forall j :: i <= j < SHARD_COUNT ==> shards[j] == before[j]
        invariant forall j :: 0 <= j < i ==> shards[j] == Kept(before[j], drop)
      {
        SweepShard(i, drop);
      }
      SweepWhole(before, shards[..], drop);
    }

    /** One shard, its keys in any order. */
    method SweepShard(i: nat, drop: (Bytes, V) -> bool)
      requires shards.Length == SHARD_COUNT && i < SHARD_COUNT
      modifies shards
      ensures shards[i] == Kept(old(shards[i]), drop)
      ensures forall j :: 0 <= j < SHARD_COUNT && j != i ==> shards[j] == old(shards[j])
    {
      ghost var whole := shards[i];
      var keys := shards[i].Keys;
      while keys != {}
        invariant keys <= whole.Keys
        invariant forall k :: k in shards[i] <==> k in whole && (k in keys || !drop(k, whole[k]))
        invariant forall k :: k in shards[i] ==> shards[i][k] == whole[k]
        invariant forall j :: 0 <= j < SHARD_COUNT && j != i ==> shards[j] == old(shards[j])
        decreases keys
      {
        var k :| k in keys;
        if drop(k, shards[i][k]) { shards[i] := shards[i] - {k}; }
        keys := keys - {k};
      }
    }
  }
}
