/** Tool paths as dedup keys spell them: `filepath.Clean` and `canonicalToolPathForDedup`, with `/` as the separator. */
module ToolPath {
  import opened Bytes
  import opened JsonString

  // ------------------------------------------------------------------------------ components

  predicate IsPart(c: Bytes) { Lacks(c, '/') }

  predicate AreParts(cs: seq<Bytes>) { forall i :: 0 <= i < |cs| ==> IsPart(cs[i]) }

  /** The parts between the slashes. */
  function Split(s: Bytes): (cs: seq<Bytes>)
    ensures cs != []
  {
    if s == [] then [[]]
    else if s[0] == '/' then [[]] + Split(s[1..])
    else
      var rest := Split(s[1..]);
      [[s[0]] + rest[0]] + rest[1..]
  }

  function Join(cs: seq<Bytes>): Bytes
    requires cs != []
  {
    if |cs| == 1 then cs[0] else cs[0] + (['/'] + Join(cs[1..]))
  }

  lemma {:induction false} SplitParts(s: Bytes)
    ensures AreParts(Split(s))
  {
    if s != [] { SplitParts(s[1..]); }
  }

  lemma {:induction false} SplitAfter(c: Bytes, s: Bytes)
    requires IsPart(c)
    ensures Split(c + (['/'] + s)) == [c] + Split(s) && Split(c) == [c]
  {
    var t := c + (['/'] + s);
    if c == [] {
      assert t == ['/'] + s && t[1..] == s;
    } else {
      SplitAfter(c[1..], s);
      assert t[0] == c[0] && t[1..] == c[1..] + (['/'] + s);
      assert c == [c[0]] + c[1..];
    }
  }

  /** Parts that are joined are found again. */
  lemma {:induction false} SplitJoin(cs: seq<Bytes>)
    requires cs != [] && AreParts(cs)
    ensures Split(Join(cs)) == cs
  {
    if |cs| == 1 {
      SplitAfter(cs[0], []);
    } else {
      SplitJoin(cs[1..]);
      SplitAfter(cs[0], Join(cs[1..]));
    }
  }

  lemma {:induction false} JoinSplit(s: Bytes)
    ensures Join(Split(s)) == s
  {
    if s != [] {
      JoinSplit(s[1..]);
      var rest := Split(s[1..]);
      if s[0] != '/' {
        assert ([[s[0]] + rest[0]] + rest[1..])[1..] == rest[1..];
        if |rest| > 1 { assert ([s[0]] + rest[0]) + (['/'] + Join(rest[1..])) == [s[0]] + (rest[0] + (['/'] + Join(rest[1..]))); }
      }
    }
  }

  lemma {:induction false} JoinSnoc(cs: seq<Bytes>, c: Bytes)
    requires cs != []
    ensures Join(cs + [c]) == Join(cs) + (['/'] + c)
  {
    var ds := cs + [c];
    if |cs| == 1 {
      assert ds[1..] == [c];
    } else {
      JoinSnoc(cs[1..], c);
      assert ds[1..] == cs[1..] + [c];
      assert (cs[0] + (['/'] + Join(cs[1..]))) + (['/'] + c) == cs[0] + (['/'] + (Join(cs[1..]) + (['/'] + c)));
    }
  }

  /** A slash and a part at the end are one more part. */
  lemma SplitBefore(s: Bytes, c: Bytes)
    requires IsPart(c)
    ensures Split(s + (['/'] + c)) == Split(s) + [c]
  {
    SplitParts(s);
    JoinSplit(s);
    JoinSnoc(Split(s), c);
    SplitJoin(Split(s) + [c]);
  }

  // -------------------------------------------------------------------------------- cleaning

  const DOT: Bytes := ['.']
  const UP: Bytes := ['.', '.']

  /** One more part of a path: nothing for an empty part or a dot, one part less for a double dot when there is one to
      take away. */
  function Push(rooted: bool, stack: seq<Bytes>, c: Bytes): seq<Bytes> {
    if c == [] || c == DOT then stack
    else if c == UP then
      if stack != [] && stack[|stack| - 1] != UP then stack[..|stack| - 1] else if rooted then stack else stack + [c]
    else stack + [c]
  }

  function Reduce(rooted: bool, cs: seq<Bytes>): seq<Bytes> {
    if cs == [] then [] else Push(rooted, Reduce(rooted, cs[..|cs| - 1]), cs[|cs| - 1])
  }

  /** Whether a path starts at the root, and its parts once it is cleaned. */
  datatype Path = Path(rooted: bool, parts: seq<Bytes>)

  predicate IsRooted(s: Bytes) { s != [] && s[0] == '/' }

  function Parse(s: Bytes): Path { Path(IsRooted(s), Reduce(IsRooted(s), Split(s))) }

  function Render(p: Path): Bytes {
    if p.rooted then ['/'] + (if p.parts == [] then [] else Join(p.parts))
    else if p.parts == [] then DOT
    else Join(p.parts)
  }

  /** `filepath.Clean`. */
  function Clean(s: Bytes): Bytes { Render(Parse(s)) }

  predicate PlainPart(c: Bytes) { IsPart(c) && c != [] && c != DOT }

  /** No empty part, no dot, and double dots only at the front of a path that is not rooted. */
  predicate Normal(p: Path) {
    && (forall i :: 0 <= i < |p.parts| ==> PlainPart(p.parts[i]))
    && (forall i :: 0 <= i < |p.parts| && p.parts[i] == UP ==> !p.rooted && forall j :: 0 <= j < i ==> p.parts[j] == UP)
  }

  lemma PushNormal(rooted: bool, stack: seq<Bytes>, c: Bytes)
    requires Normal(Path(rooted, stack)) && IsPart(c)
    ensures Normal(Path(rooted, Push(rooted, stack, c)))
  {
    var l := |stack|;
    if c == UP && (l == 0 || stack[l - 1] == UP) && !rooted {
      assert forall j :: 0 <= j < l ==> stack[j] == UP;
    }
  }

  lemma {:induction false} ReduceNormal(rooted: bool, cs: seq<Bytes>)
    requires AreParts(cs)
    ensures Normal(Path(rooted, Reduce(rooted, cs)))
  {
    if cs != [] {
      ReduceNormal(rooted, cs[..|cs| - 1]);
      PushNormal(rooted, Reduce(rooted, cs[..|cs| - 1]), cs[|cs| - 1]);
    }
  }

  /** Clean parts stay as they are. */
  lemma {:induction false} NormalReduces(rooted: bool, cs: seq<Bytes>)
    requires Normal(Path(rooted, cs))
    ensures Reduce(rooted, cs) == cs
  {
    if cs != [] {
      var f, c := cs[..|cs| - 1], cs[|cs| - 1];
      assert cs == f + [c];
      FrontNormal(rooted, f, c);
      NormalReduces(rooted, f);
      LastStays(rooted, f, c, cs);
    }
  }

  lemma FrontNormal(rooted: bool, f: seq<Bytes>, c: Bytes)
    requires Normal(Path(rooted, f + [c]))
    ensures Normal(Path(rooted, f))
  {
    var cs := f + [c];
    assert forall i :: 0 <= i < |f| ==> f[i] == cs[i];
  }

  lemma LastStays(rooted: bool, f: seq<Bytes>, c: Bytes, cs: seq<Bytes>)
    requires cs == f + [c] && Normal(Path(rooted, cs))
    ensures Push(rooted, f, c) == cs
  {
    assert PlainPart(cs[|f|]) && cs[|f|] == c;
    if f != [] { assert f[|f| - 1] == cs[|f| - 1]; }
  }

  /** An empty part or a dot in front changes nothing, nor does a dot at the end. */
  lemma {:induction false} ReduceSkips(rooted: bool, c: Bytes, cs: seq<Bytes>)
    requires c == [] || c == DOT
    ensures Reduce(rooted, [c] + cs) == Reduce(rooted, cs) && Reduce(rooted, cs + [c]) == Reduce(rooted, cs)
  {
    assert (cs + [c])[..|cs|] == cs;
    if cs == [] {
      assert [c] + cs == [c] && [c][..0] == [];
    } else {
      ReduceSkips(rooted, c, cs[..|cs| - 1]);
      assert ([c] + cs)[..|cs|] == [c] + cs[..|cs| - 1];
    }
  }

  lemma RenderStart(p: Path)
    requires Normal(p)
    ensures IsRooted(Render(p)) == p.rooted && Render(p) != []
  {
    if !p.rooted && p.parts != [] {
      assert PlainPart(p.parts[0]) && p.parts[0][0] in p.parts[0];
    }
  }

  /** A clean path that is written is read back. */
  lemma ParseRender(p: Path)
    requires Normal(p)
    ensures Parse(Render(p)) == p
  {
    RenderStart(p);
    NormalReduces(p.rooted, p.parts);
    if p.parts == [] {
      if p.rooted {
        SplitAfter([], []);
        assert [] + (['/'] + []) == ['/'];
        ReduceSkips(true, [], [[]]);
        ReduceSkips(true, [], []);
      } else {
        SplitAfter(DOT, []);
        ReduceSkips(false, DOT, []);
      }
    } else {
      SplitJoin(p.parts);
      if p.rooted {
        SplitAfter([], Join(p.parts));
        assert [] + (['/'] + Join(p.parts)) == ['/'] + Join(p.parts);
        ReduceSkips(true, [], p.parts);
      }
    }
  }

  lemma ParseNormal(s: Bytes)
    ensures Normal(Parse(s))
  {
    SplitParts(s);
    ReduceNormal(IsRooted(s), Split(s));
  }

  /** Cleaning twice is cleaning once. */
  lemma CleanTwice(s: Bytes)
    ensures Clean(Clean(s)) == Clean(s)
  {
    ParseNormal(s);
    ParseRender(Parse(s));
  }

  // -------------------------------------------------------------------- where a path leads

  /** One step from a directory, which is given by the names that lead to it from the root. */
  function Step(at: seq<Bytes>, c: Bytes): seq<Bytes> {
    if c == [] || c == DOT then at
    else if c == UP then (if at == [] then [] else at[..|at| - 1])
    else at + [c]
  }

  function Walk(at: seq<Bytes>, cs: seq<Bytes>): seq<Bytes> {
    if cs == [] then at else Step(Walk(at, cs[..|cs| - 1]), cs[|cs| - 1])
  }

  /** Where a path leads from a directory, links aside. */
  function LeadsTo(from: seq<Bytes>, s: Bytes): seq<Bytes> { Walk(if IsRooted(s) then [] else from, Split(s)) }

  lemma WalkSnoc(at: seq<Bytes>, cs: seq<Bytes>, c: Bytes)
    ensures Walk(at, cs + [c]) == Step(Walk(at, cs), c)
  {
    assert (cs + [c])[..|cs|] == cs;
  }

  lemma {:induction false} WalkSkips(at: seq<Bytes>, c: Bytes, cs: seq<Bytes>)
    requires c == [] || c == DOT
    ensures Walk(at, [c] + cs) == Walk(at, cs)
  {
    if cs == [] {
      assert [c] + cs == [] + [c];
      WalkSnoc(at, [], c);
    } else {
      var f, l := cs[..|cs| - 1], cs[|cs| - 1];
      WalkSkips(at, c, f);
      WalkSnoc(at, [c] + f, l);
      assert [c] + cs == ([c] + f) + [l];
    }
  }

  /** Taking a part away is walking there and back. */
  lemma PushWalks(from: seq<Bytes>, rooted: bool, stack: seq<Bytes>, c: Bytes)
    requires Normal(Path(rooted, stack)) && (rooted ==> from == [])
    ensures Walk(from, Push(rooted, stack, c)) == Step(Walk(from, stack), c)
  {
    var l := |stack|;
    if rooted { RootedHasNoUp(stack); }
    if c == [] || c == DOT {
    } else if c == UP && l > 0 && stack[l - 1] != UP {
      var f, top := stack[..l - 1], stack[l - 1];
      assert PlainPart(top) && stack == f + [top];
      WalkSnoc(from, f, top);
      assert (Walk(from, f) + [top])[..|Walk(from, f)|] == Walk(from, f);
    } else if c != UP || !rooted {
      WalkSnoc(from, stack, c);
    }
  }

  lemma RootedHasNoUp(cs: seq<Bytes>)
    requires Normal(Path(true, cs))
    ensures forall i :: 0 <= i < |cs| ==> cs[i] != UP
  {
  }

  lemma {:induction false} ReduceWalks(from: seq<Bytes>, rooted: bool, cs: seq<Bytes>)
    requires AreParts(cs) && (rooted ==> from == [])
    ensures Walk(from, Reduce(rooted, cs)) == Walk(from, cs)
  {
    if cs != [] {
      var f, c := cs[..|cs| - 1], cs[|cs| - 1];
      ReduceWalks(from, rooted, f);
      ReduceNormal(rooted, f);
      PushWalks(from, rooted, Reduce(rooted, f), c);
    }
  }

  lemma RenderWalks(from: seq<Bytes>, p: Path)
    requires Normal(p)
    ensures Walk(from, Split(Render(p))) == Walk(from, p.parts)
  {
    if p.parts == [] {
      if p.rooted {
        SplitAfter([], []);
        assert [] + (['/'] + []) == ['/'];
        var empty: Bytes := [];
        WalkSkips(from, empty, [empty]);
        WalkSkips(from, empty, []);
        assert [empty] + [] == [empty];
      } else {
        SplitAfter(DOT, []);
        WalkSkips(from, DOT, []);
        assert [DOT] + [] == [DOT];
      }
    } else {
      SplitJoin(p.parts);
      if p.rooted {
        SplitAfter([], Join(p.parts));
        assert [] + (['/'] + Join(p.parts)) == ['/'] + Join(p.parts);
        WalkSkips(from, [], p.parts);
      }
    }
  }

  /** A path leads where its parts do once it is cleaned. */
  lemma PartsLead(from: seq<Bytes>, s: Bytes)
    ensures LeadsTo(from, s) == Walk(if IsRooted(s) then [] else from, Parse(s).parts)
  {
    SplitParts(s);
    ReduceWalks(if IsRooted(s) then [] else from, IsRooted(s), Split(s));
  }

  /** A cleaned path leads where the path does. */
  lemma CleanLeads(from: seq<Bytes>, s: Bytes)
    ensures LeadsTo(from, Clean(s)) == LeadsTo(from, s)
  {
    ParseNormal(s);
    RenderStart(Parse(s));
    PartsLead(from, s);
    RenderWalks(if IsRooted(s) then [] else from, Parse(s));
  }

  /** How many double dots a clean path starts with. */
  function Ups(cs: seq<Bytes>): (k: nat)
    ensures k <= |cs|
  {
    if cs == [] then 0 else if cs[|cs| - 1] == UP then |cs| else Ups(cs[..|cs| - 1])
  }

  /** The path goes up from the directory and then down. */
  predicate UpAndDown(from: seq<Bytes>, cs: seq<Bytes>) {
    && Ups(cs) <= |from| && Walk(from, cs) == from[..|from| - Ups(cs)] + cs[Ups(cs)..]
    && forall i :: 0 <= i < Ups(cs) ==> cs[i] == UP
  }

  /** From a deep directory every clean path does. */
  lemma {:induction false} NormalWalks(from: seq<Bytes>, p: Path)
    requires Normal(p) && !p.rooted && |p.parts| <= |from|
    ensures UpAndDown(from, p.parts)
    decreases |p.parts|
  {
    if p.parts != [] {
      var f, c := p.parts[..|p.parts| - 1], p.parts[|p.parts| - 1];
      assert p.parts == f + [c];
      FrontNormal(p.rooted, f, c);
      NormalWalks(from, Path(false, f));
      if c == UP { StepUp(from, f, p.parts); } else { StepDown(from, f, c); }
    }
  }

  lemma StepUp(from: seq<Bytes>, f: seq<Bytes>, cs: seq<Bytes>)
    requires cs == f + [UP] && Normal(Path(false, cs)) && |cs| <= |from| && UpAndDown(from, f)
    ensures UpAndDown(from, cs)
  {
    assert cs[|f|] == UP;
    assert forall i :: 0 <= i < |f| ==> f[i] == cs[i] == UP;
    AllUps(f);
    AllUps(cs);
    WalkSnoc(from, f, UP);
    OneUp(from, f, cs);
  }

  lemma StepDown(from: seq<Bytes>, f: seq<Bytes>, c: Bytes)
    requires c != UP && PlainPart((f + [c])[|f|]) && UpAndDown(from, f)
    ensures UpAndDown(from, f + [c])
  {
    var cs := f + [c];
    assert cs[..|f|] == f && Ups(cs) == Ups(f);
    WalkSnoc(from, f, c);
    OneDown(from[..|from| - Ups(f)], f, Ups(f), c);
    assert forall i :: 0 <= i < Ups(f) ==> cs[i] == f[i];
  }

  lemma OneUp(from: seq<Bytes>, f: seq<Bytes>, cs: seq<Bytes>)
    requires |cs| == |f| + 1 <= |from|
    ensures Step(from[..|from| - |f|] + f[|f|..], UP) == from[..|from| - |cs|] + cs[|cs|..]
  {
    assert from[..|from| - |f|] + f[|f|..] == from[..|from| - |f|];
    assert from[..|from| - |cs|] + cs[|cs|..] == from[..|from| - |cs|];
  }

  lemma OneDown(a: seq<Bytes>, f: seq<Bytes>, k: nat, c: Bytes)
    requires k <= |f|
    ensures (a + f[k..]) + [c] == a + (f + [c])[k..]
  {
  }

  lemma AllUps(f: seq<Bytes>)
    requires forall i :: 0 <= i < |f| ==> f[i] == UP
    ensures Ups(f) == |f|
  {
  }

  /** A name longer than any part. */
  function Longer(cs: seq<Bytes>): (n: nat)
    ensures forall i :: 0 <= i < |cs| ==> |cs[i]| < n
    decreases |cs|
  {
    if cs == [] then 0
    else
      var n, l := Longer(cs[..|cs| - 1]), |cs[|cs| - 1]| + 1;
      if n > l then n else l
  }

  /** A directory as deep as need be, under names found in neither path. */
  function Deep(p: Path, q: Path): seq<Bytes> {
    var name := seq(Longer(p.parts + q.parts), _ => 'a');
    seq(|p.parts| + |q.parts| + 1, _ => name)
  }

  /** A deep directory under names found in neither path. */
  predicate IsDeep(from: seq<Bytes>, p: Path, q: Path) {
    && |from| > |p.parts| + |q.parts|
    && (forall i, j :: 0 <= i < |from| && 0 <= j < |p.parts| ==> p.parts[j] != from[i])
    && (forall i, j :: 0 <= i < |from| && 0 <= j < |q.parts| ==> q.parts[j] != from[i])
  }

  lemma DeepIsDeep(p: Path, q: Path)
    ensures IsDeep(Deep(p, q), p, q)
  {
    var all := p.parts + q.parts;
    assert forall j :: 0 <= j < |p.parts| ==> all[j] == p.parts[j];
    assert forall j :: 0 <= j < |q.parts| ==> all[|p.parts| + j] == q.parts[j];
  }

  lemma MoreUps(from: seq<Bytes>, k: nat, a: seq<Bytes>, l: nat, b: seq<Bytes>)
    requires k < l <= |from| && forall i, j :: 0 <= i < |from| && 0 <= j < |b| ==> b[j] != from[i]
    ensures from[..|from| - k] + a != from[..|from| - l] + b
  {
    var x, y := from[..|from| - k] + a, from[..|from| - l] + b;
    if b != [] {
      assert x[|from| - l] == from[|from| - l];
      assert y[|from| - l] == b[0];
    } else {
      assert |y| < |x|;
    }
  }

  lemma SameParts(from: seq<Bytes>, p: Path, q: Path)
    requires Normal(p) && Normal(q) && !p.rooted && !q.rooted && IsDeep(from, p, q) && Walk(from, p.parts) == Walk(from, q.parts)
    ensures p == q
  {
    NormalWalks(from, p);
    NormalWalks(from, q);
    SameSplit(from, p.parts, Ups(p.parts), q.parts, Ups(q.parts));
  }

  lemma SameSplit(from: seq<Bytes>, a: seq<Bytes>, k: nat, b: seq<Bytes>, l: nat)
    requires k <= |a| && l <= |b| && |from| > |a| + |b| && from[..|from| - k] + a[k..] == from[..|from| - l] + b[l..]
    requires forall i :: 0 <= i < k ==> a[i] == UP
    requires forall i :: 0 <= i < l ==> b[i] == UP
    requires forall i, j :: 0 <= i < |from| && 0 <= j < |a| ==> a[j] != from[i]
    requires forall i, j :: 0 <= i < |from| && 0 <= j < |b| ==> b[j] != from[i]
    ensures a == b
  {
    if k < l { MoreUps(from, k, a[k..], l, b[l..]); }
    else if l < k { MoreUps(from, l, b[l..], k, a[k..]); }
    else {
      SameTail(from[..|from| - k], a[k..], b[k..]);
      assert a == a[..k] + a[k..] && b == b[..k] + b[k..];
      assert a[..k] == b[..k];
    }
  }

  lemma SameTail(f: seq<Bytes>, a: seq<Bytes>, b: seq<Bytes>)
    requires f + a == f + b
    ensures a == b
  {
    assert (f + a)[|f|..] == a && (f + b)[|f|..] == b;
  }

  lemma RootedDiffers(from: seq<Bytes>, p: Path, q: Path)
    requires Normal(p) && Normal(q) && p.rooted && !q.rooted && IsDeep(from, p, q)
    ensures Walk([], p.parts) != Walk(from, q.parts)
  {
    RootedLeads(p);
    NormalWalks(from, q);
    assert Walk(from, q.parts)[0] == from[0];
  }

  lemma RootedLeads(p: Path)
    requires Normal(p) && p.rooted
    ensures Walk([], p.parts) == p.parts
  {
    RootedHasNoUp(p.parts);
    WalkDown([], p.parts);
    assert [] + p.parts == p.parts;
  }

  lemma {:induction false} WalkDown(from: seq<Bytes>, cs: seq<Bytes>)
    requires forall i :: 0 <= i < |cs| ==> PlainPart(cs[i]) && cs[i] != UP
    ensures Walk(from, cs) == from + cs
  {
    if cs != [] {
      WalkDown(from, cs[..|cs| - 1]);
      assert cs == cs[..|cs| - 1] + [cs[|cs| - 1]];
    }
  }

  /** Two paths are cleaned to the same if and only if they lead to the same place from every directory. */
  lemma CleanIff(s: Bytes, t: Bytes)
    ensures Clean(s) == Clean(t) <==> forall from :: LeadsTo(from, s) == LeadsTo(from, t)
  {
    if Clean(s) == Clean(t) {
      forall from ensures LeadsTo(from, s) == LeadsTo(from, t) {
        CleanLeads(from, s);
        CleanLeads(from, t);
      }
    }
    if forall from :: LeadsTo(from, s) == LeadsTo(from, t) { SameLeads(s, t); }
  }

  lemma SameLeads(s: Bytes, t: Bytes)
    requires forall from :: LeadsTo(from, s) == LeadsTo(from, t)
    ensures Parse(s) == Parse(t)
  {
    var p, q := Parse(s), Parse(t);
    ParseNormal(s);
    ParseNormal(t);
    var from := Deep(p, q);
    var back := Deep(q, p);
    DeepIsDeep(p, q);
    DeepIsDeep(q, p);
    PartsLead(from, s);
    PartsLead(from, t);
    PartsLead(back, s);
    PartsLead(back, t);
    assert LeadsTo(from, s) == LeadsTo(from, t) && LeadsTo(back, s) == LeadsTo(back, t);
    if p.rooted && q.rooted {
      RootedLeads(p);
      RootedLeads(q);
    } else if p.rooted {
      RootedDiffers(from, p, q);
    } else if q.rooted {
      RootedDiffers(back, q, p);
    } else {
      SameParts(from, p, q);
    }
  }

  // ------------------------------------------------------------------------- canonical paths

  /** `sameOrWithinPath` for a rooted path. */
  predicate Within(p: Path, root: Path) { p.rooted && root.rooted && root.parts <= p.parts }

  /** A path inside the working directory is made relative to it. */
  function Relative(workdir: Bytes, p: Path): Path {
    if workdir != [] && Within(p, Parse(workdir)) then Path(false, p.parts[|Parse(workdir).parts|..]) else p
  }

  /** `canonicalToolPathForDedup`. */
  function Canonical(workdir: Bytes, path: Bytes): Bytes {
    var t := TrimSpace(path);
    if t == [] then [] else Render(Relative(TrimSpace(workdir), Parse(t)))
  }

  /** The path is clean, and not rooted inside the working directory. */
  predicate IsCanonical(workdir: Bytes, p: Bytes) {
    p != [] && Clean(p) == p && (TrimSpace(workdir) == [] || !Within(Parse(p), Parse(TrimSpace(workdir))))
  }

  lemma RelativeNormal(workdir: Bytes, p: Path)
    requires Normal(p)
    ensures Normal(Relative(workdir, p)) && (workdir == [] || !Within(Relative(workdir, p), Parse(workdir)))
  {
    if workdir != [] && Within(p, Parse(workdir)) {
      var k := |Parse(workdir).parts|;
      assert forall i :: 0 <= i < |p.parts[k..]| ==> p.parts[k..][i] == p.parts[k + i];
    }
  }

  /** Canonical paths are what canonicalising gives... */
  lemma CanonicalIsCanonical(workdir: Bytes, path: Bytes)
    ensures Canonical(workdir, path) == [] <==> TrimSpace(path) == []
    ensures TrimSpace(path) != [] ==> IsCanonical(workdir, Canonical(workdir, path))
  {
    var t, w := TrimSpace(path), TrimSpace(workdir);
    if t != [] {
      ParseNormal(t);
      RelativeNormal(w, Parse(t));
      RenderStart(Relative(w, Parse(t)));
      ParseRender(Relative(w, Parse(t)));
    }
  }

  /** From a rooted working directory a canonical path leads where the path does: two paths with one canonical form are
      of one file. */
  lemma CanonicalLeads(workdir: Bytes, path: Bytes)
    requires TrimSpace(path) != [] && IsRooted(TrimSpace(workdir))
    ensures var from := LeadsTo([], TrimSpace(workdir)); LeadsTo(from, Canonical(workdir, path)) == LeadsTo(from, TrimSpace(path))
  {
    var t, w := TrimSpace(path), TrimSpace(workdir);
    var from := LeadsTo([], w);
    ParseNormal(t);
    ParseNormal(w);
    PartsLead([], w);
    RootedLeads(Parse(w));
    PartsLead(from, t);
    var r := Relative(w, Parse(t));
    RelativeNormal(w, Parse(t));
    RenderStart(r);
    RenderWalks(if r.rooted then [] else from, r);
    if Within(Parse(t), Parse(w)) { WalkWithin(from, Parse(t), r); }
  }

  /** What is left of a rooted path below a directory leads there from that directory. */
  lemma WalkWithin(from: seq<Bytes>, p: Path, r: Path)
    requires Normal(p) && p.rooted && from <= p.parts && r == Path(false, p.parts[|from|..]) && Normal(r)
    ensures Walk(from, r.parts) == Walk([], p.parts)
  {
    RootedLeads(p);
    RootedHasNoUp(p.parts);
    assert p.parts == from + r.parts;
    assert forall i :: 0 <= i < |r.parts| ==> r.parts[i] == p.parts[|from| + i];
    WalkDown(from, r.parts);
  }

  /** A text that canonicalises to `p`, whatever white space `p` starts or ends with. */
  function Spelt(p: Bytes): Bytes { if IsRooted(p) then p + (['/'] + DOT) else DOT + (['/'] + (p + (['/'] + DOT))) }

  lemma SpeltIsTrimmed(p: Bytes)
    ensures Spelt(p) != [] && TrimSpace(Spelt(p)) == Spelt(p)
  {
    var s := Spelt(p);
    assert s[|s| - 1] == '.' && (s[0] == '.' || s[0] == '/');
    AsciiEndsAreTrimmed(s);
    TrimSpaceTrims(s);
  }

  lemma SpeltParses(p: Bytes)
    ensures Parse(Spelt(p)) == Parse(p)
  {
    SplitBefore(p, DOT);
    ReduceSkips(IsRooted(p), DOT, Split(p));
    if !IsRooted(p) {
      SplitAfter(DOT, p + (['/'] + DOT));
      ReduceSkips(false, DOT, Split(p) + [DOT]);
    }
  }

  /** ... and each of them is given. */
  lemma EveryCanonical(workdir: Bytes, p: Bytes)
    requires IsCanonical(workdir, p)
    ensures Canonical(workdir, Spelt(p)) == p
  {
    SpeltIsTrimmed(p);
    SpeltParses(p);
  }

  // ----------------------------------------------------------------------------------- UTF-8

  predicate IsTail(b: char) { '\U{80}' <= b <= '\U{BF}' }

  lemma RuneTails(s: Bytes, i: nat)
    requires s != [] && 1 <= i < RuneSize(s)
    ensures IsTail(s[i])
  {
  }

  /** UTF-8 is cut in front of any byte that is no continuation byte. */
  lemma {:induction false} Utf8Splits(a: Bytes, r: Bytes)
    requires r != [] && !IsTail(r[0]) && ValidUtf8(a + r)
    ensures ValidUtf8(a) && ValidUtf8(r)
  {
    var s := a + r;
    if a == [] {
      assert s == r;
    } else {
      var n := RuneSize(s);
      FirstRuneFits(a, r);
      var t := a[n..];
      assert s[n..] == t + r;
      Utf8Splits(t, r);
      SameRune(a, s, n);
      RuneThen(a, n);
    }
  }

  lemma FirstRuneFits(a: Bytes, r: Bytes)
    requires a != [] && r != [] && !IsTail(r[0])
    ensures RuneSize(a + r) <= |a|
  {
    var s := a + r;
    assert s[|a|] == r[0];
    if RuneSize(s) > |a| { RuneTails(s, |a|); }
  }

  /** A sequence that ends within a prefix is one of the prefix. */
  lemma SameRune(a: Bytes, s: Bytes, n: nat)
    requires a != [] && a <= s && n == RuneSize(s) && 0 < n <= |a|
    ensures RuneSize(a) == n
  {
    assert forall i :: 0 <= i < |a| ==> a[i] == s[i];
  }

  lemma {:induction false} Utf8Joins(a: Bytes, b: Bytes)
    requires ValidUtf8(a) && ValidUtf8(b)
    ensures ValidUtf8(a + b)
  {
    var s := a + b;
    if a == [] {
      assert s == b;
    } else {
      var n := RuneSize(a);
      var t := a[n..];
      LongerRune(a, s);
      assert s[n..] == t + b && ValidUtf8(t);
      Utf8Joins(t, b);
      RuneThen(s, n);
    }
  }

  lemma RuneThen(s: Bytes, n: nat)
    requires s != [] && RuneSize(s) == n > 0 && ValidUtf8(s[n..])
    ensures ValidUtf8(s)
  {
  }

  lemma LongerRune(a: Bytes, s: Bytes)
    requires a != [] && a <= s && RuneSize(a) > 0
    ensures RuneSize(s) == RuneSize(a)
  {
    assert forall i :: 0 <= i < |a| ==> a[i] == s[i];
  }

  lemma SpaceIsRune(s: Bytes)
    requires SpaceSize(s) > 0 && ValidUtf8(s)
    ensures ValidUtf8(s[SpaceSize(s)..])
  {
    assert RuneSize(s) == SpaceSize(s);
  }

  lemma {:induction false} TrimLeftUtf8(s: Bytes)
    requires ValidUtf8(s)
    ensures ValidUtf8(TrimLeft(s))
  {
    if SpaceSize(s) > 0 {
      SpaceIsRune(s);
      TrimLeftUtf8(s[SpaceSize(s)..]);
    }
  }

  lemma {:induction false} TrimRightUtf8(s: Bytes)
    requires ValidUtf8(s)
    ensures ValidUtf8(TrimRight(s))
    decreases |s|
  {
    var n := SpaceSizeAtEnd(s);
    if n > 0 {
      EndSpaceUtf8(s, n);
      TrimRightUtf8(s[..|s| - n]);
    }
  }

  lemma EndSpaceUtf8(s: Bytes, n: nat)
    requires ValidUtf8(s) && n > 0 && EndsInSpace(s, n)
    ensures ValidUtf8(s[..|s| - n])
  {
    Halves(s, |s| - n);
    CutSpace(s, s[..|s| - n], s[|s| - n..]);
  }

  lemma Halves(s: Bytes, k: nat)
    requires k <= |s|
    ensures s == s[..k] + s[k..]
  {
  }

  lemma CutSpace(s: Bytes, a: Bytes, r: Bytes)
    requires s == a + r && ValidUtf8(s) && SpaceSize(r) > 0
    ensures ValidUtf8(a)
  {
    SpaceStarts(r);
    Utf8Splits(a, r);
  }

  lemma SpaceStarts(r: Bytes)
    requires SpaceSize(r) > 0
    ensures r != [] && !IsTail(r[0])
  {
  }

  lemma TrimSpaceUtf8(s: Bytes)
    requires ValidUtf8(s)
    ensures ValidUtf8(TrimSpace(s))
  {
    TrimLeftUtf8(s);
    TrimRightUtf8(TrimLeft(s));
  }

  predicate AllUtf8(cs: seq<Bytes>) { forall i :: 0 <= i < |cs| ==> ValidUtf8(cs[i]) }

  lemma SlashUtf8(s: Bytes)
    ensures ValidUtf8(['/'] + s) <==> ValidUtf8(s)
  {
    assert (['/'] + s)[1..] == s;
  }

  lemma {:induction false} JoinUtf8(cs: seq<Bytes>)
    requires cs != []
    ensures ValidUtf8(Join(cs)) <==> AllUtf8(cs)
  {
    if |cs| > 1 {
      var rest := Join(cs[1..]);
      JoinUtf8(cs[1..]);
      SlashUtf8(rest);
      if ValidUtf8(Join(cs)) { Utf8Splits(cs[0], ['/'] + rest); }
      assert forall i :: 1 <= i < |cs| ==> cs[i] == cs[1..][i - 1];
      if AllUtf8(cs) { Utf8Joins(cs[0], ['/'] + rest); }
    }
  }

  lemma {:induction false} ReduceUtf8(rooted: bool, cs: seq<Bytes>)
    requires AllUtf8(cs)
    ensures AllUtf8(Reduce(rooted, cs))
  {
    if cs != [] { ReduceUtf8(rooted, cs[..|cs| - 1]); }
  }

  lemma RenderUtf8(p: Path)
    requires AllUtf8(p.parts)
    ensures ValidUtf8(Render(p))
  {
    if p.parts != [] {
      JoinUtf8(p.parts);
      SlashUtf8(Join(p.parts));
    } else {
      SlashUtf8([]);
      assert DOT[1..] == [];
    }
  }

  lemma CanonicalUtf8(workdir: Bytes, path: Bytes)
    requires ValidUtf8(path)
    ensures ValidUtf8(Canonical(workdir, path))
  {
    var t := TrimSpace(path);
    TrimSpaceUtf8(path);
    if t != [] {
      JoinSplit(t);
      JoinUtf8(Split(t));
      ReduceUtf8(IsRooted(t), Split(t));
      RenderUtf8(Relative(TrimSpace(workdir), Parse(t)));
    }
  }

  lemma SpeltUtf8(p: Bytes)
    requires ValidUtf8(p)
    ensures ValidUtf8(Spelt(p))
  {
    var end: Bytes := ['/'] + DOT;
    SlashUtf8(DOT);
    assert DOT[1..] == [];
    Utf8Joins(p, end);
    SlashUtf8(p + end);
    if !IsRooted(p) {
      assert (DOT + (['/'] + (p + end)))[1..] == ['/'] + (p + end);
    }
  }
}
