/** Byte strings, the standard-library searches the pipeline relies on, and decimal printing. */
module Bytes {

  /** A byte string. A byte is a character below 256; string literals are then byte literals. */
  type Bytes = string

  datatype Option<+T> = None | Some(value: T)

  /** What follows the first occurrence of `m` in `s`; None when `m` does not occur. */
  function After(s: Bytes, m: Bytes): (r: Option<Bytes>)
    ensures r.Some? ==> |r.value| + |m| <= |s| && r.value == s[|s| - |r.value|..]
    decreases |s|
  {
    if m <= s then Some(s[|m|..])
    else if s == [] then None
    else After(s[1..], m)
  }

  /** `bytes.Contains`. */
  predicate Contains(s: Bytes, m: Bytes) {
    After(s, m).Some?
  }

  /** `m` stands at position `i` of `s`. */
  predicate OccursAt(s: Bytes, m: Bytes, i: int) {
    0 <= i <= |s| && m <= s[i..]
  }

  /** `bytes.Index`. */
  function Index(s: Bytes, m: Bytes): (i: int)
    ensures -1 <= i && (i >= 0 ==> i + |m| <= |s|)
    decreases |s|
  {
    if m <= s then 0
    else if s == [] then -1
    else
      var r := Index(s[1..], m);
      if r < 0 then -1 else r + 1
  }

  /** It is the first position of `m` in `s`, or -1. */
  lemma {:induction false} IndexIsFirst(s: Bytes, m: Bytes)
    ensures Index(s, m) < 0 ==> forall j :: !OccursAt(s, m, j)
    ensures Index(s, m) >= 0 ==> OccursAt(s, m, Index(s, m)) && forall j :: j < Index(s, m) ==> !OccursAt(s, m, j)
    decreases |s|
  {
    assert s[0..] == s;
    if !(m <= s) && s != [] {
      IndexIsFirst(s[1..], m);
      assert forall j :: 1 <= j <= |s| ==> s[j..] == s[1..][j - 1..];
      assert forall j :: OccursAt(s, m, j) ==> j >= 1 && OccursAt(s[1..], m, j - 1);
    }
  }

  /** `After` and `Index` are two views of one search. */
  lemma {:induction false} AfterIsIndex(s: Bytes, m: Bytes)
    ensures After(s, m) == if Index(s, m) >= 0 then Some(s[Index(s, m) + |m|..]) else None
    decreases |s|
  {
    if !(m <= s) && s != [] {
      AfterIsIndex(s[1..], m);
    }
  }

  predicate IsDigit(c: char) { '0' <= c <= '9' }

  function Digit(n: nat): char
    requires n < 10
  {
    "0123456789"[n]
  }

  /** `strconv.AppendInt(…, n, 10)` for a non-negative number. */
  function DecimalNat(n: nat): (d: Bytes)
    ensures d != [] && forall i :: 0 <= i < |d| ==> IsDigit(d[i])
  {
    if n < 10 then [Digit(n)] else DecimalNat(n / 10) + [Digit(n % 10)]
  }

  /** `strconv.AppendInt(…, n, 10)`. */
  function Decimal(n: int): (d: Bytes)
    ensures d != [] && (IsDigit(d[0]) || (d[0] == '-' && |d| > 1))
    ensures forall i :: 1 <= i < |d| ==> IsDigit(d[i])
  {
    if n < 0 then "-" + DecimalNat(-n) else DecimalNat(n)
  }

  /** The number a digit string spells. */
  function NatValue(d: Bytes): nat
    requires forall i :: 0 <= i < |d| ==> IsDigit(d[i])
  {
    if d == [] then 0
    else
      assert IsDigit(d[|d| - 1]);
      10 * NatValue(d[..|d| - 1]) + (d[|d| - 1] as int - '0' as int)
  }

  lemma {:induction false} DecimalNatValue(n: nat)
    ensures NatValue(DecimalNat(n)) == n
  {
    if n < 10 {
      assert DecimalNat(n)[..0] == [];
      assert NatValue([]) == 0;
    } else {
      DecimalNatValue(n / 10);
      var d := DecimalNat(n);
      assert d[..|d| - 1] == DecimalNat(n / 10);
    }
  }

  /** Different numbers print differently. */
  lemma DecimalInjective(m: int, n: int)
    requires Decimal(m) == Decimal(n)
    ensures m == n
  {
    DecimalNatValue(if m < 0 then -m else m);
    DecimalNatValue(if n < 0 then -n else n);
    if m < 0 {
      assert Decimal(m)[1..] == DecimalNat(-m);
      assert n < 0 && Decimal(n)[1..] == DecimalNat(-n);
    }
  }

  // ---------------------------------------------------------------- strings.TrimSpace

  /** Length of the white-space character at the front of `s` (Unicode White_Space in UTF-8); 0 when none. */
  function SpaceSize(s: Bytes): (n: nat)
    ensures n <= |s|
  {
    if s == [] then 0
    else if s[0] == ' ' || '\t' <= s[0] <= '\r' then 1
    else if |s| >= 2 && s[0] == '\U{C2}' && (s[1] == '\U{85}' || s[1] == '\U{A0}') then 2
    else if |s| >= 3 && WideSpace(s[0], s[1], s[2]) then 3
    else 0
  }

  predicate WideSpace(a: char, b: char, c: char) {
    || (a == '\U{E1}' && b == '\U{9A}' && c == '\U{80}')
    || (a == '\U{E2}' && b == '\U{80}' && ('\U{80}' <= c <= '\U{8A}' || c == '\U{A8}' || c == '\U{A9}' || c == '\U{AF}'))
    || (a == '\U{E2}' && b == '\U{81}' && c == '\U{9F}')
    || (a == '\U{E3}' && b == '\U{80}' && c == '\U{80}')
  }

  /** Length of the white-space character at the end of `s`; 0 when none. */
  function SpaceSizeAtEnd(s: Bytes): (n: nat)
    ensures n <= |s|
  {
    if EndsInSpace(s, 1) then 1 else if EndsInSpace(s, 2) then 2 else if EndsInSpace(s, 3) then 3 else 0
  }

  /** The last `n` bytes are a white-space character. */
  predicate EndsInSpace(s: Bytes, n: nat) { n <= |s| && SpaceSize(s[|s| - n..]) == n }

  function TrimLeft(s: Bytes): (r: Bytes)
    ensures |r| <= |s|
  {
    if SpaceSize(s) > 0 then TrimLeft(s[SpaceSize(s)..]) else s
  }

  function TrimRight(s: Bytes): (r: Bytes)
    ensures |r| <= |s| && r <= s
  {
    if SpaceSizeAtEnd(s) > 0 then TrimRight(s[..|s| - SpaceSizeAtEnd(s)]) else s
  }

  function TrimSpace(s: Bytes): Bytes { TrimRight(TrimLeft(s)) }

  /** Text that `strings.TrimSpace` leaves alone. */
  predicate Trimmed(s: Bytes) { SpaceSize(s) == 0 && SpaceSizeAtEnd(s) == 0 }

  /** Trimming ends at trimmed text, and changes exactly the text that is not trimmed. */
  lemma {:induction false} TrimSpaceTrims(s: Bytes)
    ensures Trimmed(TrimSpace(s)) && (TrimSpace(s) == s <==> Trimmed(s))
  {
    TrimLeftTrims(s);
    TrimRightTrims(TrimLeft(s));
  }

  lemma TrimTwice(s: Bytes)
    ensures TrimSpace(TrimSpace(s)) == TrimSpace(s)
  {
    TrimSpaceTrims(s);
    TrimSpaceTrims(TrimSpace(s));
  }

  lemma {:induction false} TrimLeftTrims(s: Bytes)
    ensures SpaceSize(TrimLeft(s)) == 0 && (SpaceSize(s) > 0 ==> |TrimLeft(s)| < |s|)
  {
    if SpaceSize(s) > 0 { TrimLeftTrims(s[SpaceSize(s)..]); }
  }

  lemma {:induction false} TrimRightTrims(s: Bytes)
    requires SpaceSize(s) == 0
    ensures Trimmed(TrimRight(s)) && (SpaceSizeAtEnd(s) > 0 ==> |TrimRight(s)| < |s|)
    decreases |s|
  {
    if SpaceSizeAtEnd(s) > 0 {
      TrimRightTrims(s[..|s| - SpaceSizeAtEnd(s)]);
    }
  }

  /** No white-space character ends in an ASCII byte that is not one. */
  lemma NoSpaceEndsIn(t: Bytes)
    requires t != [] && ' ' < t[|t| - 1] < '\U{80}'
    ensures SpaceSize(t) != |t|
  {
  }

  lemma NotEndsInSpace(s: Bytes, n: nat)
    requires s != [] && ' ' < s[|s| - 1] < '\U{80}' && n > 0
    ensures !EndsInSpace(s, n)
  {
    if n <= |s| {
      var t := s[|s| - n..];
      assert t[n - 1] == s[|s| - 1];
      NoSpaceEndsIn(t);
    }
  }

  /** Text between two ASCII bytes that are not spaces is trimmed. */
  lemma AsciiEndsAreTrimmed(s: Bytes)
    requires s != [] && ' ' < s[0] < '\U{80}' && ' ' < s[|s| - 1] < '\U{80}'
    ensures Trimmed(s)
  {
    NotEndsInSpace(s, 1);
    NotEndsInSpace(s, 2);
    NotEndsInSpace(s, 3);
  }

  // ------------------------------------------------------------------------- cutting joined text

  lemma Unprefix(p: Bytes, a: Bytes, b: Bytes)
    requires p + a == p + b
    ensures a == b
  {
    assert (p + a)[|p|..] == a && (p + b)[|p|..] == b;
  }

  predicate Lacks(s: Bytes, c: char) { c !in s }

  /** Text joined at a separator that the first part lacks is joined in one way only. */
  lemma {:induction false} SplitsAt(sep: char, a: Bytes, b: Bytes, c: Bytes, d: Bytes)
    requires Lacks(a, sep) && Lacks(c, sep) && a + ([sep] + b) == c + ([sep] + d)
    ensures a == c && b == d
  {
    if a == [] || c == [] {
      assert (a + ([sep] + b))[0] == (c + ([sep] + d))[0];
      assert a + ([sep] + b) == [sep] + b && c + ([sep] + d) == [sep] + d;
      Unprefix([sep], b, d);
    } else {
      assert (a + ([sep] + b))[0] == (c + ([sep] + d))[0];
      assert (a + ([sep] + b))[1..] == a[1..] + ([sep] + b) && (c + ([sep] + d))[1..] == c[1..] + ([sep] + d);
      SplitsAt(sep, a[1..], b, c[1..], d);
    }
  }
}
