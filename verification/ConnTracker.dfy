/** The in-memory connection tracker. */
module ConnTracker {
  import opened Bytes

  /** `MemoryConnTracker`: one atomic counter per account, created on first use and never removed. */
  class MemoryConnTracker {
    var conns: map<int, int>

    ghost predicate Valid()
      reads this
    {
      forall id :: id in conns ==> conns[id] >= 0
    }

    /** `GetCount`: zero for an account never seen. */
    function Count(id: int): int
      reads this
    {
      if id in conns then conns[id] else 0
    }

    constructor ()
      ensures Valid() && forall id :: Count(id) == 0
    {
      conns := map[];
    }

    method Acquire(id: int)
      requires Valid()
      modifies this
      ensures Valid() && Count(id) == old(Count(id)) + 1 && forall other :: other != id ==> Count(other) == old(Count(other))
    {
      if id !in conns { conns := conns[id := 0]; }
      conns := conns[id := conns[id] + 1];
    }

    method CompareAndSwap(id: int, want: int, value: int) returns (swapped: bool)
      requires id in conns
      modifies this
      ensures swapped == (old(conns)[id] == want) && conns == if swapped then old(conns)[id := value] else old(conns)
    {
      swapped := conns[id] == want;
      if swapped { conns := conns[id := value]; }
    }

    /** `Release`: one less, never below zero. Alone, the loop swaps at the first try; the interleaved form is
        in RequestTracking. */
    method Release(id: int)
      requires Valid()
      modifies this
      ensures Valid() && Count(id) == (if old(Count(id)) > 0 then old(Count(id)) - 1 else 0)
      ensures forall other :: other != id ==> Count(other) == old(Count(other))
    {
      if id in conns {
        var done := false;
        while !done
          invariant Valid() && id in conns
          invariant !done ==> conns == old(conns)
          invariant done ==> conns == old(conns)[id := if old(conns)[id] > 0 then old(conns)[id] - 1 else 0]
          decreases !done
        {
          var current := conns[id];
          if current <= 0 {
            done := true;
          } else {
            done := CompareAndSwap(id, current, current - 1);
          }
        }
      }
    }

    method GetCounts(ids: seq<int>) returns (counts: map<int, int>)
      ensures forall id :: id in counts <==> id in ids
      ensures forall id :: id in counts ==> counts[id] == Count(id)
    {
      counts := map[];
      for i := 0 to |ids|
        invariant forall id :: id in counts <==> id in ids[..i]
        invariant forall id :: id in counts ==> counts[id] == Count(id)
      {
        counts := counts[ids[i] := Count(ids[i])];
      }
    }
  }
}
