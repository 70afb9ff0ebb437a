/** Picking values out of a sequence. */
module Picking {
  import opened Bytes

  /** What `f` finds in a sequence, in order. */
  function Picked<S, T>(s: seq<S>, f: S -> Option<T>): seq<T> {
    if s == [] then [] else Picked(s[..|s| - 1], f) + (if f(s[|s| - 1]).Some? then [f(s[|s| - 1]).value] else [])
  }

  lemma PickedSnoc<S, T>(s: seq<S>, x: S, f: S -> Option<T>)
    ensures Picked(s + [x], f) == Picked(s, f) + if f(x).Some? then [f(x).value] else []
  {
    assert (s + [x])[..|s|] == s;
  }

  lemma {:induction false} PickedAdds<S, T>(s: seq<S>, u: seq<S>, f: S -> Option<T>)
    ensures Picked(s + u, f) == Picked(s, f) + Picked(u, f)
  {
    if u == [] { assert s + u == s; }
    else {
      var v, x := u[..|u| - 1], u[|u| - 1];
      assert s + u == (s + v) + [x] && u == v + [x];
      PickedAdds(s, v, f);
      PickedSnoc(s + v, x, f);
    }
  }
}
