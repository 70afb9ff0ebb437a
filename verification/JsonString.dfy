/** The hand-written JSON string encoder of sse_frame.go, and a decoder written from the standards. */
module JsonString {
  import opened Bytes

  // ---------------------------------------------------------------- UTF-8 (section 4 of RFC 3629)

  /** `s[i]` is a continuation byte between `lo` and `hi`. */
  predicate TailAt(s: Bytes, i: nat, lo: char := '\U{80}', hi: char := '\U{BF}') {
    i < |s| && lo <= s[i] <= hi
  }

  /** Length a well-formed sequence has when it starts with `b`; 0 when none does. */
  function LeadSize(b: char): nat {
    if b < '\U{80}' then 1
    else if '\U{C2}' <= b <= '\U{DF}' then 2
    else if '\U{E0}' <= b <= '\U{EF}' then 3
    else if '\U{F0}' <= b <= '\U{F4}' then 4
    else 0
  }

  /** Length of the well-formed UTF-8 sequence at the front of `s`; 0 when there is none.
      `utf8.DecodeRuneInString` reports the latter as RuneError with size 1. */
  function RuneSize(s: Bytes): (n: nat)
    requires s != []
    ensures n <= |s| && n <= 4
    ensures s[0] < '\U{80}' <==> n == 1
    ensures n > 1 ==> forall i :: 0 <= i < n ==> '\U{80}' <= s[i] <= '\U{F4}'
  {
    var b, n := s[0], LeadSize(s[0]);
    var second := TailAt(s, 1, if b == '\U{E0}' then '\U{A0}' else if b == '\U{F0}' then '\U{90}' else '\U{80}',
                               if b == '\U{ED}' then '\U{9F}' else if b == '\U{F4}' then '\U{8F}' else '\U{BF}');
    if n <= 1 then n
    else if second && (n < 3 || TailAt(s, 2)) && (n < 4 || TailAt(s, 3)) then n
    else 0
  }

  /** `s` is UTF-8 throughout. */
  predicate ValidUtf8(s: Bytes) {
    s == [] || (RuneSize(s) > 0 && ValidUtf8(s[RuneSize(s)..]))
  }

  /** UTF-8 of a code point. */
  function EncodeRune(c: nat): Bytes
    requires c < 0x110000
  {
    if c < 0x80 then [c as char]
    else if c < 0x800 then [(0xC0 + c / 0x40) as char, (0x80 + c % 0x40) as char]
    else if c < 0x10000 then
      [(0xE0 + c / 0x1000) as char, (0x80 + c / 0x40 % 0x40) as char, (0x80 + c % 0x40) as char]
    else
      [(0xF0 + c / 0x40000) as char, (0x80 + c / 0x1000 % 0x40) as char, (0x80 + c / 0x40 % 0x40) as char,
       (0x80 + c % 0x40) as char]
  }

  // ------------------------------------------------------ decoding (section 7 of RFC 8259)

  function HexValue(c: char): Option<nat> {
    if '0' <= c <= '9' then Some(c as int - '0' as int)
    else if 'a' <= c <= 'f' then Some(c as int - 'a' as int + 10)
    else if 'A' <= c <= 'F' then Some(c as int - 'A' as int + 10)
    else None
  }

  /** The code unit of `\uXXXX` at the front of `s`. */
  function UnicodeEscape(s: Bytes): (r: Option<nat>)
    ensures r.Some? ==> |s| >= 6 && r.value < 0x10000
  {
    if |s| < 6 || s[0] != '\\' || s[1] != 'u' then None
    else
      match (HexValue(s[2]), HexValue(s[3]), HexValue(s[4]), HexValue(s[5]))
      case (Some(a), Some(b), Some(c), Some(d)) => Some(a * 4096 + b * 256 + c * 16 + d)
      case _ => None
  }

  /** The character a two-byte escape stands for. */
  function ShortEscape(c: char): Option<char> {
    match c
    case '\"' => Some('\"')
    case '\\' => Some('\\')
    case '/' => Some('/')
    case 'b' => Some('\U{08}')
    case 'f' => Some('\U{0C}')
    case 'n' => Some('\n')
    case 'r' => Some('\r')
    case 't' => Some('\t')
    case _ => None
  }

  /** Length of the escape or plain byte at the front of `s` and the bytes it stands for.
      A surrogate pair is one code point; a lone surrogate decodes to U+FFFD. */
  function Unit(s: Bytes): (r: Option<(nat, Bytes)>)
    requires s != []
    ensures r.Some? ==> 1 <= r.value.0 <= |s| && |r.value.1| <= r.value.0
    ensures r.Some? && s[0] == '\\' ==> |r.value.1| < r.value.0
  {
    if s[0] < ' ' || s[0] == '\"' then None
    else if s[0] != '\\' then Some((1, [s[0]]))
    else
      match UnicodeEscape(s)
      case Some(hi) =>
        if 0xD800 <= hi < 0xDC00 then
          match UnicodeEscape(s[6..])
          case Some(lo) =>
            if 0xDC00 <= lo < 0xE000 then Some((12, EncodeRune(0x10000 + (hi - 0xD800) * 0x400 + (lo - 0xDC00))))
            else Some((6, EncodeRune(0xFFFD)))
          case None => Some((6, EncodeRune(0xFFFD)))
        else if 0xDC00 <= hi < 0xE000 then Some((6, EncodeRune(0xFFFD)))
        else Some((6, EncodeRune(hi)))
      case None =>
        if |s| < 2 then None
        else match ShortEscape(s[1])
          case Some(c) => Some((2, [c]))
          case None => None
  }

  /** The string value of the bytes between two quotes; None when they are not a string body. */
  function Decode(s: Bytes): Option<Bytes> {
    if s == [] then Some([])
    else
      match Unit(s)
      case None => None
      case Some((n, u)) =>
        match Decode(s[n..])
        case None => None
        case Some(rest) => Some(u + rest)
  }

  // ------------------------------------------------------------------------------ encoding

  /** ASCII bytes the encoder copies unchanged. */
  predicate Plain(b: char) {
    b >= ' ' && b != '\\' && b != '\"' && b != '<' && b != '>' && b != '&'
  }

  function HexDigit(n: nat): char
    requires n < 16
  {
    "0123456789abcdef"[n]
  }

  /** What the encoder writes for an ASCII byte that is not plain. */
  function Escaped(b: char): Bytes
    requires b < '\U{80}'
  {
    match b
    case '\\' => "\\\\"
    case '\"' => "\\\""
    case '\U{08}' => "\\b"
    case '\U{0C}' => "\\f"
    case '\n' => "\\n"
    case '\r' => "\\r"
    case '\t' => "\\t"
    case _ => "\\u00" + [HexDigit(b as int / 16), HexDigit(b as int % 16)]
  }

  const LINE_SEPARATOR: Bytes := ['\U{E2}', '\U{80}', '\U{A8}']
  const PARAGRAPH_SEPARATOR: Bytes := ['\U{E2}', '\U{80}', '\U{A9}']

  /** What the encoder writes for the sequence `r` of one rune. */
  function EncodedRune(r: Bytes): Bytes
    requires r != [] && (|r| == 1 ==> r[0] < '\U{80}')
  {
    if |r| == 1 then (if Plain(r[0]) then r else Escaped(r[0]))
    else if r == LINE_SEPARATOR then "\\u2028"
    else if r == PARAGRAPH_SEPARATOR then "\\u2029"
    else r
  }

  /** The bytes written between the quotes for a valid UTF-8 value. */
  function Encode(v: Bytes): Bytes
    requires ValidUtf8(v)
  {
    if v == [] then [] else EncodedRune(v[..RuneSize(v)]) + Encode(v[RuneSize(v)..])
  }

  function Quote(v: Bytes): Bytes
    requires ValidUtf8(v)
  {
    "\"" + Encode(v) + "\""
  }

  // ---------------------------------------------------------------------------- round trip

  /** One unit decodes on its own, whatever follows. */
  lemma DecodeUnit(u: Bytes, x: Bytes, rest: Bytes)
    requires u != [] && Unit(u + rest) == Some((|u|, x))
    ensures Decode(u + rest) == match Decode(rest) { case None => None case Some(d) => Some(x + d) }
  {
    assert (u + rest)[|u|..] == rest;
  }

  lemma {:induction false} DecodeHighBytes(p: Bytes, rest: Bytes)
    requires forall i :: 0 <= i < |p| ==> p[i] >= '\U{80}'
    ensures Decode(p + rest) == match Decode(rest) { case None => None case Some(d) => Some(p + d) }
  {
    if p == [] {
      assert p + rest == rest;
      assert forall d: Bytes :: p + d == d;
    } else {
      assert p + rest == [p[0]] + (p[1..] + rest);
      DecodeUnit([p[0]], [p[0]], p[1..] + rest);
      DecodeHighBytes(p[1..], rest);
      assert forall d: Bytes :: [p[0]] + (p[1..] + d) == p + d;
    }
  }

  lemma HexRoundTrip(n: nat)
    requires n < 16
    ensures HexValue(HexDigit(n)) == Some(n)
  {
  }

  lemma UnitOfHexEscape(b: char, rest: Bytes)
    requires b < '\U{80}'
    ensures var e := "\\u00" + [HexDigit(b as int / 16), HexDigit(b as int % 16)];
            Unit(e + rest) == Some((6, [b]))
  {
    var h, l := HexDigit(b as int / 16), HexDigit(b as int % 16);
    var s := "\\u00" + [h, l] + rest;
    HexRoundTrip(b as int / 16);
    HexRoundTrip(b as int % 16);
    assert s[0] == '\\' && s[1] == 'u' && s[2] == '0' && s[3] == '0' && s[4] == h && s[5] == l;
    assert UnicodeEscape(s) == Some(b as int);
    assert EncodeRune(b as int) == [b];
  }

  lemma UnitOfEscaped(b: char, rest: Bytes)
    requires b < '\U{80}' && !Plain(b)
    ensures Unit(Escaped(b) + rest) == Some((|Escaped(b)|, [b]))
  {
    if b in "\\\"\U{08}\U{0C}\n\r\t" {
      var s := Escaped(b) + rest;
      assert |Escaped(b)| == 2 && s[0] == '\\' && s[1] == Escaped(b)[1];
      assert UnicodeEscape(s) == None;
    } else {
      UnitOfHexEscape(b, rest);
    }
  }

  /** What the encoder writes for one rune decodes to that rune. */
  lemma DecodeEncodedRune(v: Bytes, rest: Bytes)
    requires v != [] && RuneSize(v) > 0
    ensures var r := v[..RuneSize(v)];
            Decode(EncodedRune(r) + rest) == match Decode(rest) { case None => None case Some(d) => Some(r + d) }
  {
    var r := v[..RuneSize(v)];
    if |r| == 1 {
      assert r == [r[0]];
      if Plain(r[0]) {
        assert (r + rest)[0] == r[0];
      } else {
        UnitOfEscaped(r[0], rest);
      }
      DecodeUnit(EncodedRune(r), r, rest);
    } else if r == LINE_SEPARATOR || r == PARAGRAPH_SEPARATOR {
      var e := EncodedRune(r);
      var s := e + rest;
      assert s[..6] == e;
      assert UnicodeEscape(s) == Some(if r == LINE_SEPARATOR then 0x2028 else 0x2029);
      DecodeUnit(e, r, rest);
    } else {
      DecodeHighBytes(r, rest);
    }
  }

  /** Decoding what the encoder wrote gives the value back, for every valid UTF-8 value. */
  lemma {:induction false} RoundTrip(v: Bytes)
    requires ValidUtf8(v)
    ensures Decode(Encode(v)) == Some(v)
  {
    if v != [] {
      var n := RuneSize(v);
      RoundTrip(v[n..]);
      DecodeEncodedRune(v, Encode(v[n..]));
      assert v[..n] + v[n..] == v;
    }
  }

  // ---------------------------------------------------------------------- shape of the output

  /** Number of bytes before the first unescaped quote; |s| when there is none. */
  function BodyLength(s: Bytes): (k: nat)
    ensures k <= |s|
    ensures k < |s| ==> s[k] == '\"'
  {
    if s == [] || s[0] == '\"' then 0
    else if s[0] == '\\' then (if |s| == 1 then 1 else 2 + BodyLength(s[2..]))
    else 1 + BodyLength(s[1..])
  }

  /** `b` is the text between two quotes: no unescaped quote and no escape left open at the end. */
  predicate IsBody(b: Bytes) {
    b == []
    || (b[0] == '\\' && |b| >= 2 && IsBody(b[2..]))
    || (b[0] != '\\' && b[0] != '\"' && IsBody(b[1..]))
  }

  /** The first unescaped quote after a body is the one that closes it. */
  lemma {:induction false} BodyEndsAtQuote(b: Bytes, rest: Bytes)
    requires IsBody(b)
    ensures var s := b + (['\"'] + rest);
            BodyLength(s) == |b| && s[..|b|] == b && s[|b| + 1..] == rest
  {
    var s := b + (['\"'] + rest);
    if b != [] {
      var n := if b[0] == '\\' then 2 else 1;
      BodyEndsAtQuote(b[n..], rest);
      assert s[n..] == b[n..] + (['\"'] + rest);
    }
  }

  /** The body of the string literal at the front of `s`, and what follows its closing quote. */
  function SplitQuoted(s: Bytes): (r: Option<(Bytes, Bytes)>)
    ensures r.Some? ==> |r.value.0| + |r.value.1| + 2 == |s|
  {
    if s == [] || s[0] != '\"' then None
    else
      var k := BodyLength(s[1..]);
      if k < |s| - 1 then Some((s[1..][..k], s[1..][k + 1..])) else None
  }

  lemma SplitPrinted(t: Bytes, rest: Bytes)
    requires IsBody(t)
    ensures SplitQuoted(['\"'] + (t + (['\"'] + rest))) == Some((t, rest))
  {
    BodyEndsAtQuote(t, rest);
    assert (['\"'] + (t + (['\"'] + rest)))[1..] == t + (['\"'] + rest);
  }

  lemma {:induction false} BodyConcat(a: Bytes, b: Bytes)
    requires IsBody(a) && IsBody(b)
    ensures IsBody(a + b)
  {
    if a == [] {
      assert a + b == b;
    } else {
      var n := if a[0] == '\\' then 2 else 1;
      BodyConcat(a[n..], b);
      assert (a + b)[n..] == a[n..] + b;
    }
  }

  lemma {:induction false} PlainBytesAreBody(b: Bytes)
    requires forall i :: 0 <= i < |b| ==> b[i] != '\\' && b[i] != '\"'
    ensures IsBody(b)
  {
    if b != [] { PlainBytesAreBody(b[1..]); }
  }

  ghost predicate NoControl(s: Bytes) { forall i :: 0 <= i < |s| ==> s[i] >= ' ' }

  /** An escape is longer than what it stands for. */
  lemma EscapeShape(r: Bytes)
    requires r != [] && |r| <= 4 && (|r| == 1 ==> r[0] < '\U{80}') && (|r| == 1 ==> !Plain(r[0]))
    requires |r| > 1 ==> r == LINE_SEPARATOR || r == PARAGRAPH_SEPARATOR
    ensures IsBody(EncodedRune(r)) && NoControl(EncodedRune(r)) && |EncodedRune(r)| > |r|
  {
    var e := EncodedRune(r);
    assert |e| == 2 || |e| == 6;
    assert e[0] == '\\';
    PlainBytesAreBody(e[2..]);
  }

  /** The rune is written as it is. */
  predicate Copied(r: Bytes)
    requires r != []
  {
    if |r| == 1 then Plain(r[0]) else r != LINE_SEPARATOR && r != PARAGRAPH_SEPARATOR
  }

  lemma EncodedRuneShape(v: Bytes)
    requires v != [] && RuneSize(v) > 0
    ensures var e := EncodedRune(v[..RuneSize(v)]);
            && IsBody(e) && NoControl(e)
            && |e| >= RuneSize(v)
            && (|e| == RuneSize(v) <==> e == v[..RuneSize(v)])
            && (|e| == RuneSize(v) <==> RawRune(v))
  {
    RuneShape(v[..RuneSize(v)]);
  }

  lemma RuneShape(r: Bytes)
    requires r != [] && |r| <= 4 && (|r| == 1 ==> r[0] < '\U{80}') && (|r| > 1 ==> forall i :: 0 <= i < |r| ==> r[i] >= '\U{80}')
    ensures var e := EncodedRune(r);
      IsBody(e) && NoControl(e) && |e| >= |r| && (|e| == |r| <==> e == r) && (|e| == |r| <==> Copied(r))
  {
    if Copied(r) { PlainBytesAreBody(r); } else { EscapeShape(r); }
  }

  /** The output is a string body and holds no control byte, so no line break. */
  lemma {:induction false} EncodeIsBody(v: Bytes)
    requires ValidUtf8(v)
    ensures IsBody(Encode(v)) && NoControl(Encode(v))
  {
    if v != [] {
      EncodedRuneShape(v);
      EncodeIsBody(v[RuneSize(v)..]);
      BodyConcat(EncodedRune(v[..RuneSize(v)]), Encode(v[RuneSize(v)..]));
    }
  }

  /** The output is never shorter than the value, and of the same length only when it is the value. */
  lemma {:induction false} EncodeGrows(v: Bytes)
    requires ValidUtf8(v)
    ensures |Encode(v)| >= |v| && (|Encode(v)| == |v| <==> Encode(v) == v)
  {
    if v != [] {
      var n := RuneSize(v);
      EncodedRuneShape(v);
      EncodeGrows(v[n..]);
      assert v == v[..n] + v[n..];
    }
  }

  /** Different values are written differently. */
  lemma EncodeInjective(v: Bytes, w: Bytes)
    requires ValidUtf8(v) && ValidUtf8(w) && Encode(v) == Encode(w)
    ensures v == w
  {
    RoundTrip(v);
    RoundTrip(w);
  }

  // ------------------------------------------------------------------------------- the loops

  /** What the scan of `canAppendJSONRawString` tests at each rune. */
  predicate RawRune(v: Bytes)
    requires v != []
  {
    var n := RuneSize(v);
    n > 0 && (n == 1 ==> Plain(v[0])) && v[..n] != LINE_SEPARATOR && v[..n] != PARAGRAPH_SEPARATOR
  }

  /** Escaping would change nothing. */
  predicate Unchanged(v: Bytes) { ValidUtf8(v) && Encode(v) == v }

  lemma UnchangedStep(v: Bytes)
    requires v != []
    ensures Unchanged(v) <==> RawRune(v) && Unchanged(v[RuneSize(v)..])
  {
    if ValidUtf8(v) {
      var n := RuneSize(v);
      var e := EncodedRune(v[..n]);
      EncodedRuneShape(v);
      EncodeGrows(v[n..]);
      assert v == v[..n] + v[n..];
      assert Encode(v) == e + Encode(v[n..]);
      if Encode(v) == v {
        assert |e| == n;
        assert Encode(v)[n..] == Encode(v[n..]);
      }
    }
  }

  /** The scan's test at one rune, by the kind of its first byte. */
  lemma RawRuneByKind(v: Bytes)
    requires v != []
    ensures v[0] < '\U{80}' ==> RuneSize(v) == 1 && (RawRune(v) <==> Plain(v[0]))
    ensures v[0] >= '\U{80}' ==>
      (RawRune(v) <==> RuneSize(v) > 0 && v[..RuneSize(v)] != LINE_SEPARATOR && v[..RuneSize(v)] != PARAGRAPH_SEPARATOR)
  {
  }

  /** The tests of the scan on one rune: its size, or zero when it is not raw. */
  method ScanRune(tail: Bytes) returns (size: nat)
    requires tail != []
    ensures size == if RawRune(tail) then RuneSize(tail) else 0
  {
    RawRuneByKind(tail);
    var b := tail[0];
    if b < '\U{80}' {
      if b < ' ' || b == '\\' || b == '\"' || b == '<' || b == '>' || b == '&' {
        return 0;
      }
      return 1;
    }
    size := RuneSize(tail);
    if size > 0 {
      var r := tail[..size];
      if r == LINE_SEPARATOR || r == PARAGRAPH_SEPARATOR { size := 0; }
    }
  }

  /** Where the scan stands: `goal` is decided by what is not yet scanned. */
  ghost predicate Scanning(tail: Bytes, goal: bool)
    decreases |tail|
  {
    if tail == [] then goal
    else if !RawRune(tail) then !goal
    else Scanning(tail[RuneSize(tail)..], goal)
  }

  lemma {:induction false} ScanningStart(tail: Bytes)
    ensures Scanning(tail, Unchanged(tail))
    decreases |tail|
  {
    if tail != [] {
      UnchangedStep(tail);
      if RawRune(tail) { ScanningStart(tail[RuneSize(tail)..]); }
    }
  }

  /** `canAppendJSONRawString`: the fast path is taken exactly when escaping would change nothing. */
  method CanAppendRaw(value: Bytes) returns (ok: bool)
    ensures ok <==> ValidUtf8(value) && Encode(value) == value
  {
    ghost var goal := Unchanged(value);
    ScanningStart(value);
    ok := ScanAll(value, goal);
  }

  /** Its loop over the runes. */
  method ScanAll(value: Bytes, ghost goal: bool) returns (ok: bool)
    requires Scanning(value, goal)
    ensures ok == goal
  {
    var tail := value;
    while tail != []
      invariant Scanning(tail, goal)
      decreases |tail|
    {
      var size := ScanRune(tail);
      if size == 0 {
        return false;
      }
      tail := tail[size..];
    }
    return true;
  }

  /** Where the escaping loop stands: `done` is written or held for copying, `tail` is not yet scanned. */
  ghost predicate Pending(done: Bytes, tail: Bytes, goal: Option<Bytes>)
    decreases |tail|
  {
    if tail == [] then goal == Some(done)
    else
      var n := RuneSize(tail);
      if n == 0 then goal == None else Pending(done + EncodedRune(tail[..n]), tail[n..], goal)
  }

  lemma {:induction false} PendingStart(done: Bytes, tail: Bytes)
    ensures Pending(done, tail, if ValidUtf8(tail) then Some(done + Encode(tail)) else None)
    decreases |tail|
  {
    if tail == [] {
      assert done + [] == done;
    } else {
      var n := RuneSize(tail);
      if n > 0 {
        var e := EncodedRune(tail[..n]);
        PendingStart(done + e, tail[n..]);
        if ValidUtf8(tail) {
          assert done + (e + Encode(tail[n..])) == done + e + Encode(tail[n..]);
        }
      }
    }
  }

  /** What is written and what is held back for copying. */
  function Held(out: Bytes, value: Bytes, start: nat, i: nat): Bytes
    requires start <= i <= |value|
  {
    if start < i then out + value[start..i] else out
  }

  lemma HeldMore(out: Bytes, value: Bytes, start: nat, i: nat, n: nat)
    requires start <= i && i + n <= |value| && n > 0
    ensures Held(out, value, start, i) + value[i..i + n] == Held(out, value, start, i + n)
  {
    assert value[start..i + n] == value[start..i] + value[i..i + n];
  }

  lemma Enclose(dst: Bytes, body: Bytes)
    ensures dst + "\"" + body + "\"" == dst + ("\"" + body + "\"")
  {
  }

  /** `state` is `Pending` for the goal, as a value the loop can carry without looking into it. */
  ghost predicate IsState(state: (Bytes, Bytes) -> bool, goal: Option<Bytes>) {
    forall done, tail {:trigger Pending(done, tail, goal)} :: Pending(done, tail, goal) == state(done, tail)
  }

  /** The next rune and what is written for it; size zero when the text is not UTF-8. */
  method NextRune(tail: Bytes, ghost done: Bytes, ghost goal: Option<Bytes>, ghost state: (Bytes, Bytes) -> bool)
    returns (size: nat, e: Bytes, rest: Bytes, ghost done': Bytes)
    requires tail != [] && IsState(state, goal) && state(done, tail)
    ensures size == 0 ==> goal == None
    ensures size > 0 ==> size <= |tail| && rest == tail[size..] && done' == done + e && state(done', rest)
  {
    assert Pending(done, tail, goal);
    size := RuneSize(tail);
    rest := tail[size..];
    e := if size == 0 then [] else EncodedRune(tail[..size]);
    done' := done + e;
    assert size > 0 ==> Pending(done', rest, goal);
  }

  /** A rune that is its own escape is held back; another one flushes what is held. */
  method HoldOrWrite(out0: Bytes, value: Bytes, start0: nat, i: nat, size: nat, e: Bytes) returns (out: Bytes, start: nat)
    requires start0 <= i && i + size <= |value| && size > 0
    ensures start <= i + size
    ensures Held(out, value, start, i + size) == Held(out0, value, start0, i) + e
  {
    out, start := out0, start0;
    if e == value[i..i + size] {
      HeldMore(out0, value, start0, i, size);
    } else {
      if start < i { out := out + value[start..i]; }
      out := out + e;
      start := i + size;
    }
  }

  lemma DropTwice(s: Bytes, i: nat, n: nat)
    requires i + n <= |s|
    ensures s[i..][n..] == s[i + n..]
  {
  }

  /** One turn of the escaping loop; size zero when the text is not UTF-8. */
  method EscapeOne(out0: Bytes, value: Bytes, start0: nat, i: nat, ghost goal: Option<Bytes>, ghost state: (Bytes, Bytes) -> bool)
    returns (size: nat, out: Bytes, start: nat)
    requires start0 <= i < |value| && IsState(state, goal) && state(Held(out0, value, start0, i), value[i..])
    ensures size == 0 ==> goal == None
    ensures size > 0 ==> start <= i + size <= |value| && state(Held(out, value, start, i + size), value[i + size..])
  {
    out, start := out0, start0;
    var e, rest;
    ghost var done;
    size, e, rest, done := NextRune(value[i..], Held(out0, value, start0, i), goal, state);
    if size > 0 {
      DropTwice(value, i, size);
      out, start := HoldOrWrite(out0, value, start0, i, size, e);
    }
  }

  /** The escaping loop: stretches that need no escape are held back and copied at once. */
  method EscapeInto(dst: Bytes, value: Bytes, ghost goal: Option<Bytes>, ghost state: (Bytes, Bytes) -> bool) returns (ok: bool, out: Bytes)
    requires IsState(state, goal) && state(dst, value)
    ensures goal == if ok then Some(out) else None
  {
    out := dst;
    var start: nat, i: nat := 0, 0;
    assert value[0..] == value;
    while i < |value|
      invariant start <= i <= |value|
      invariant state(Held(out, value, start, i), value[i..])
    {
      var size;
      size, out, start := EscapeOne(out, value, start, i, goal, state);
      if size == 0 {
        return false, out;
      }
      i := i + size;
    }
    out := Flush(out, value, start, goal, state);
    ok := true;
  }

  /** What is held at the end is copied. */
  method Flush(out0: Bytes, value: Bytes, start: nat, ghost goal: Option<Bytes>, ghost state: (Bytes, Bytes) -> bool) returns (out: Bytes)
    requires start <= |value| && IsState(state, goal) && state(Held(out0, value, start, |value|), value[|value|..])
    ensures goal == Some(out)
  {
    out := out0;
    if start < |value| { out := out + value[start..]; }
    assert value[start..] == value[start..|value|];
    assert Pending(Held(out0, value, start, |value|), value[|value|..], goal);
  }

  /** `appendJSONBytes`. `marshal` stands for `json.Marshal`, used only for text that is not UTF-8. */
  method AppendJSONBytes(dst: Bytes, value: Bytes, marshal: Bytes -> Bytes) returns (out: Bytes)
    ensures ValidUtf8(value) ==> out == dst + Quote(value)
    ensures !ValidUtf8(value) ==> out == dst + marshal(value)
  {
    var raw := CanAppendRaw(value);
    if raw {
      Enclose(dst, value);
      return dst + "\"" + value + "\"";
    }
    PendingStart(dst + "\"", value);
    ghost var goal := if ValidUtf8(value) then Some(dst + "\"" + Encode(value)) else None;
    var ok, escaped := EscapeInto(dst + "\"", value, goal, (done, tail) => Pending(done, tail, goal));
    if !ok {
      return dst + marshal(value);
    }
    Enclose(dst, Encode(value));
    out := escaped + "\"";
  }
}
