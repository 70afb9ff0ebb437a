/** The byte-marker search of openai_sse.go, and why payload text cannot fool it. */
module MarkerSearch {
  import opened Bytes
  import opened JsonString
  import opened JsonTree

  // ------------------------------------------------------------------------------- markers

  /** A marker `"key":`, or `"key":"val"` when a value is given. */
  datatype Marker = Marker(key: Bytes, val: Option<Bytes>)

  function Text(m: Marker): Bytes {
    ['\"'] + (m.key + (['\"'] + TextTail(m)))
  }

  /** The marker from its colon on. */
  function TextTail(m: Marker): Bytes {
    [':'] + (if m.val.Some? then ['\"'] + (m.val.value + ['\"']) else [])
  }

  /** Names built from letters and underscores, as all keys and type names of the protocol are. */
  predicate Name(k: Bytes) {
    k != [] && forall i :: 0 <= i < |k| ==> 'a' <= k[i] <= 'z' || k[i] == '_'
  }

  predicate IsMarker(m: Marker) {
    Name(m.key) && (m.val.Some? ==> Name(m.val.value))
  }

  // ------------------------------------------------------- what a marker means on the tree

  /** Every object key is a name. Strings are unrestricted. */
  predicate Named(j: Json) {
    match j
    case Obj(f) => NamedFields(f)
    case Arr(a) => NamedItems(a)
    case _ => true
  }

  predicate NamedFields(f: Fields) { f.Field? ==> Name(f.key) && Named(f.value) && NamedFields(f.rest) }

  predicate NamedItems(a: Items) { a.Item? ==> Named(a.head) && NamedItems(a.tail) }

  predicate Matches(m: Marker, key: Bytes, value: Json) {
    m.key == key && (m.val.Some? ==> value == Str(m.val.value))
  }

  /** The first member, in document order and at any depth, that the marker names:
      its value, and the text printed after that value. */
  function Find(j: Json, rest: Bytes, m: Marker): Option<(Json, Bytes)>
    decreases j, 0
  {
    match j
    case Obj(f) => FindField(f, rest, m)
    case Arr(a) => FindItem(a, rest, m)
    case _ => None
  }

  function FindField(f: Fields, rest: Bytes, m: Marker): Option<(Json, Bytes)>
    decreases f, 1
  {
    match f
    case NoField => None
    case Field(k, v, next) =>
      if Matches(m, k, v) then Some((v, AfterField(next, rest)))
      else
        var inside := Find(v, AfterField(next, rest), m);
        if inside.Some? then inside else FindField(next, rest, m)
  }

  function FindItem(a: Items, rest: Bytes, m: Marker): Option<(Json, Bytes)>
    decreases a, 1
  {
    match a
    case NoItem => None
    case Item(v, next) =>
      var inside := Find(v, AfterItem(next, rest), m);
      if inside.Some? then inside else FindItem(next, rest, m)
  }

  /** The text after the marker, once the marked member is known. */
  function Remainder(m: Marker, hit: (Json, Bytes)): Bytes {
    if m.val.Some? then hit.1 else Print(hit.0, hit.1)
  }

  // --------------------------------------------------------------------- skipping non-hits

  lemma NamesAreBodies(k: Bytes)
    requires Name(k)
    ensures IsBody(k)
  {
    PlainBytesAreBody(k);
  }

  lemma SkipByte(c: char, s: Bytes, m: Marker)
    requires c != '\"'
    ensures After([c] + s, Text(m)) == After(s, Text(m))
  {
    assert ([c] + s)[1..] == s;
    assert Text(m)[0] == '\"';
  }

  lemma {:induction false} SkipUnquoted(d: Bytes, rest: Bytes, m: Marker)
    requires forall i :: 0 <= i < |d| ==> d[i] != '\"'
    ensures After(d + rest, Text(m)) == After(rest, Text(m))
  {
    if d == [] {
      assert d + rest == rest;
    } else {
      SkipUnquoted(d[1..], rest, m);
      SkipByte(d[0], d[1..] + rest, m);
      assert [d[0]] + (d[1..] + rest) == d + rest;
    }
  }

  /** A marker found at an opening quote reads exactly the quoted text as its key. */
  lemma MarkerReadsWholeString(t: Bytes, rest: Bytes, m: Marker)
    requires IsBody(t) && IsMarker(m)
    requires Text(m) <= ['\"'] + (t + (['\"'] + rest))
    ensures t == m.key && TextTail(m) <= rest
  {
    var s := ['\"'] + (t + (['\"'] + rest));
    var z := s[|Text(m)|..];
    assert s == ['\"'] + (m.key + (['\"'] + (TextTail(m) + z)));
    NamesAreBodies(m.key);
    SplitPrinted(m.key, TextTail(m) + z);
    SplitPrinted(t, rest);
  }

  /** No marker starts at a quote that is followed by no name. */
  lemma SkipQuote(rest: Bytes, m: Marker)
    requires IsMarker(m) && (rest == [] || rest[0] in ",}]:")
    ensures After(['\"'] + rest, Text(m)) == After(rest, Text(m))
  {
    var s := ['\"'] + rest;
    assert s[1..] == rest;
    assert Text(m)[1] == m.key[0] && |Text(m)| >= 2;
  }

  /** Inside a string value no marker starts, at an escaped quote or anywhere else. */
  lemma {:induction false} SkipBody(t: Bytes, rest: Bytes, m: Marker)
    requires IsBody(t) && IsMarker(m) && Follows(rest)
    ensures After(t + (['\"'] + rest), Text(m)) == After(rest, Text(m))
  {
    var tail := ['\"'] + rest;
    if t == [] {
      assert t + tail == tail;
      SkipQuote(rest, m);
    } else if t[0] == '\\' {
      var u := t[2..] + tail;
      assert t + tail == ['\\'] + ([t[1]] + u);
      SkipByte('\\', [t[1]] + u, m);
      if t[1] == '\"' && Text(m) <= ['\"'] + u {
        MarkerReadsWholeString(t[2..], rest, m);
      }
      assert ([t[1]] + u)[1..] == u;
      assert Text(m)[0] == '\"';
      SkipBody(t[2..], rest, m);
    } else {
      assert t + tail == [t[0]] + (t[1..] + tail);
      SkipByte(t[0], t[1..] + tail, m);
      SkipBody(t[1..], rest, m);
    }
  }

  lemma SkipString(t: Bytes, rest: Bytes, m: Marker)
    requires IsBody(t) && IsMarker(m) && Follows(rest)
    ensures After(['\"'] + (t + (['\"'] + rest)), Text(m)) == After(rest, Text(m))
  {
    var s := ['\"'] + (t + (['\"'] + rest));
    if Text(m) <= s { MarkerReadsWholeString(t, rest, m); }
    assert s[1..] == t + (['\"'] + rest);
    SkipBody(t, rest, m);
  }

  /** At a member that the marker does not name, the search moves on to the member's value. */
  lemma SkipKey(k: Bytes, v: Json, rest: Bytes, m: Marker)
    requires Name(k) && IsMarker(m) && Source(v) && Follows(rest) && !Matches(m, k, v)
    ensures After(['\"'] + (k + (['\"'] + ([':'] + Print(v, rest)))), Text(m)) == After(Print(v, rest), Text(m))
  {
    var body := [':'] + Print(v, rest);
    var s := ['\"'] + (k + (['\"'] + body));
    NamesAreBodies(k);
    if Text(m) <= s {
      MarkerReadsWholeString(k, body, m);
      assert TextTail(m)[1..] <= body[1..] == Print(v, rest);
      MatchesValue(v, rest, m);
    }
    assert s[1..] == k + (['\"'] + body);
    SkipUnquoted(k, ['\"'] + body, m);
    SkipQuote(body, m);
    SkipByte(':', Print(v, rest), m);
  }

  /** A marker with a value matches the printed value only if it is that string. */
  lemma MatchesValue(v: Json, rest: Bytes, m: Marker)
    requires IsMarker(m) && Source(v) && TextTail(m)[1..] <= Print(v, rest)
    ensures m.val.Some? ==> v == Str(m.val.value)
  {
    if m.val.Some? {
      var w := m.val.value;
      var s := Print(v, rest);
      assert TextTail(m)[1..] == ['\"'] + (w + ['\"']);
      assert s[0] == '\"';
      var z := s[|w| + 2..];
      assert s == ['\"'] + (w + (['\"'] + z));
      NamesAreBodies(w);
      SplitPrinted(w, z);
      SplitPrinted(v.text, rest);
    }
  }

  lemma HitRemainder(k: Bytes, v: Json, rest: Bytes, m: Marker)
    requires Matches(m, k, v)
    ensures After(['\"'] + (k + (['\"'] + ([':'] + Print(v, rest)))), Text(m)) == Some(Remainder(m, (v, rest)))
  {
    var body := Print(v, rest);
    if m.val.Some? {
      QuoteJoins(m.val.value, rest);
      MemberJoins(k, ['\"'] + (m.val.value + ['\"']), rest);
    } else {
      assert [] + body == body && [':'] + [] == [':'];
      MemberJoins(k, [], body);
    }
    AfterItself(Text(m), Remainder(m, (v, rest)));
  }

  lemma QuoteJoins(t: Bytes, rest: Bytes)
    ensures ['\"'] + (t + (['\"'] + rest)) == (['\"'] + (t + ['\"'])) + rest
  {
  }

  lemma MemberJoins(k: Bytes, tail: Bytes, rest: Bytes)
    ensures ['\"'] + (k + (['\"'] + ([':'] + (tail + rest)))) == (['\"'] + (k + (['\"'] + ([':'] + tail)))) + rest
  {
  }

  lemma AfterItself(a: Bytes, b: Bytes)
    ensures After(a + b, a) == Some(b)
  {
    assert (a + b)[|a|..] == b;
  }

  // ---------------------------------------------------------------------------- the theorem

  /** Searching the printed text for a marker is searching the tree for the member it names. */
  lemma {:induction false} SearchPrint(j: Json, rest: Bytes, m: Marker)
    requires Source(j) && Named(j) && IsMarker(m) && Follows(rest)
    ensures After(Print(j, rest), Text(m)) ==
            match Find(j, rest, m) case Some(hit) => Some(Remainder(m, hit)) case None => After(rest, Text(m))
    decreases j, 0
  {
    match j
    case Str(t) => SkipString(t, rest, m);
    case Num(d) => SkipUnquoted(d, rest, m);
    case Obj(f) =>
      SkipByte('{', PrintFields(f, rest), m);
      SearchFields(f, rest, m);
    case Arr(a) =>
      SkipByte('[', PrintItems(a, rest), m);
      SearchItems(a, rest, m);
  }

  lemma {:induction false} SearchFields(f: Fields, rest: Bytes, m: Marker)
    requires SourceFields(f) && NamedFields(f) && IsMarker(m) && Follows(rest)
    ensures After(PrintFields(f, rest), Text(m)) ==
            match FindField(f, rest, m) case Some(hit) => Some(Remainder(m, hit)) case None => After(rest, Text(m))
    decreases f, 1
  {
    match f
    case NoField => SkipByte('}', rest, m);
    case Field(k, v, next) =>
      var tail := AfterField(next, rest);
      if Matches(m, k, v) {
        HitRemainder(k, v, tail, m);
      } else {
        SkipKey(k, v, tail, m);
        SearchPrint(v, tail, m);
        if next.NoField? {
          SkipByte('}', rest, m);
        } else {
          SkipByte(',', PrintFields(next, rest), m);
          SearchFields(next, rest, m);
        }
      }
  }

  lemma {:induction false} SearchItems(a: Items, rest: Bytes, m: Marker)
    requires SourceItems(a) && NamedItems(a) && IsMarker(m) && Follows(rest)
    ensures After(PrintItems(a, rest), Text(m)) ==
            match FindItem(a, rest, m) case Some(hit) => Some(Remainder(m, hit)) case None => After(rest, Text(m))
    decreases a, 1
  {
    match a
    case NoItem => SkipByte(']', rest, m);
    case Item(v, next) =>
      SearchPrint(v, AfterItem(next, rest), m);
      if next.NoItem? {
        SkipByte(']', rest, m);
      } else {
        SkipByte(',', PrintItems(next, rest), m);
        SearchItems(next, rest, m);
      }
  }

  // ------------------------------------------------------------- extractJSONStringValueAfter

  predicate IsSpace(c: char) { c == ' ' || c == '\t' || c == '\n' || c == '\r' }

  function SkipSpace(s: Bytes): Bytes {
    if s != [] && IsSpace(s[0]) then SkipSpace(s[1..]) else s
  }

  /** The quoted string at the front of `s`, after white space, with its quotes. */
  function QuotedFront(s: Bytes): Option<Bytes> {
    match SplitQuoted(SkipSpace(s))
    case Some((t, _)) => Some(['\"'] + (t + ['\"']))
    case None => None
  }

  /** What `extractJSONStringValueAfter` returns. */
  function Extracted(data: Bytes, marker: Bytes): Option<Bytes> {
    match After(data, marker)
    case Some(t) => QuotedFront(t)
    case None => None
  }

  /** Where the loop that looks for the closing quote of `s` stands: `rest` is unread and
      `escaped` tells whether its first byte is escaped. */
  ghost predicate Scanning(rest: Bytes, escaped: bool, s: Bytes)
    decreases |rest|
  {
    var read := |s| - |rest|;
    if rest == [] then SplitQuoted(s) == None
    else if escaped then Scanning(rest[1..], false, s)
    else if rest[0] == '\\' then Scanning(rest[1..], true, s)
    else if rest[0] == '\"' then
      read >= 1 && SplitQuoted(s).Some? && ['\"'] + (SplitQuoted(s).value.0 + ['\"']) == s[..read + 1]
    else Scanning(rest[1..], false, s)
  }

  lemma {:induction false} ScanStart(rest: Bytes, s: Bytes)
    requires s != [] && s[0] == '\"' && 1 <= |s| - |rest| && rest == s[|s| - |rest|..]
    requires BodyLength(s[1..]) == |s| - |rest| - 1 + BodyLength(rest)
    ensures Scanning(rest, false, s)
    decreases |rest|
  {
    if rest != [] && rest[0] != '\"' {
      var n := if rest[0] == '\\' && |rest| > 1 then 2 else 1;
      assert rest[n..] == s[|s| - |rest| + n..];
      if rest[0] == '\\' && |rest| > 1 { assert rest[1..][1..] == rest[2..]; }
      ScanStart(rest[n..], s);
    } else if rest != [] {
      var read := |s| - |rest|;
      assert s[..read + 1] == ['\"'] + (s[1..][..read - 1] + ['\"']);
    }
  }

  /** `extractJSONStringValueAfter`, with its index loops. */
  method ExtractAfter(data: Bytes, marker: Bytes) returns (r: Option<Bytes>)
    ensures r == Extracted(data, marker)
  {
    var at := Index(data, marker);
    AfterIsIndex(data, marker);
    if at < 0 {
      return None;
    }
    var idx: nat := at + |marker|;
    ghost var rest := data[idx..];
    ghost var front := SkipSpace(rest);
    assert Extracted(data, marker) == QuotedFront(rest);
    while idx < |data| && IsSpace(data[idx])
      invariant idx <= |data| && rest == data[idx..]
      invariant SkipSpace(rest) == front
    {
      rest := rest[1..];
      idx := idx + 1;
    }
    r := QuotedAt(data, idx);
  }

  /** The part of `extractJSONStringValueAfter` that follows the white space. */
  method QuotedAt(data: Bytes, at: nat) returns (r: Option<Bytes>)
    requires at <= |data|
    ensures r == match SplitQuoted(data[at..]) case Some((t, _)) => Some(['\"'] + (t + ['\"'])) case None => None
  {
    var idx := at;
    if idx >= |data| || data[idx] != '\"' {
      return None;
    }
    var start := idx;
    idx := idx + 1;
    var escaped := false;
    ghost var s, rest := data[start..], data[idx..];
    assert s[1..] == rest;
    ScanStart(rest, s);
    while idx < |data|
      invariant start < idx <= |data| && rest == data[idx..]
      invariant Scanning(rest, escaped, s)
    {
      assert rest[1..] == data[idx + 1..];
      if escaped {
        escaped := false;
        idx := idx + 1;
        rest := rest[1..];
        continue;
      }
      if data[idx] == '\\' {
        escaped := true;
      } else if data[idx] == '\"' {
        assert s[..idx + 1 - start] == data[start..idx + 1];
        return Some(data[start..idx + 1]);
      }
      idx := idx + 1;
      rest := rest[1..];
    }
    return None;
  }

  /** On a printed tree the extraction returns exactly the quoted string of the named member. */
  lemma ExtractPrinted(j: Json, key: Bytes)
    requires Source(j) && Named(j) && Name(key)
    ensures var m := Marker(key, None);
            var hit := Find(j, [], m);
            Extracted(Print(j, []), Text(m)) ==
            if hit.Some? && hit.value.0.Str? then Some(['\"'] + (hit.value.0.text + ['\"'])) else None
  {
    var m := Marker(key, None);
    SearchPrint(j, [], m);
    FoundSource(j, [], m);
    var hit := Find(j, [], m);
    if hit.Some? { FrontOfPrinted(hit.value.0, hit.value.1); }
  }

  lemma FrontOfPrinted(v: Json, rest: Bytes)
    requires Source(v)
    ensures QuotedFront(Print(v, rest)) == if v.Str? then Some(['\"'] + (v.text + ['\"'])) else None
  {
    var s := Print(v, rest);
    assert SkipSpace(s) == s;
    if v.Str? { SplitPrinted(v.text, rest); }
  }

  /** A `"key":"val"` marker occurs in a printed tree only where the tree has that member. */
  lemma ContainsPrinted(j: Json, m: Marker)
    requires Source(j) && Named(j) && IsMarker(m)
    ensures Contains(Print(j, []), Text(m)) <==> Find(j, [], m).Some?
  {
    SearchPrint(j, [], m);
  }

  lemma {:induction false} FoundSource(j: Json, rest: Bytes, m: Marker)
    requires Source(j)
    ensures Find(j, rest, m).Some? ==> Source(Find(j, rest, m).value.0)
    decreases j, 0
  {
    match j
    case Obj(f) => FoundSourceFields(f, rest, m);
    case Arr(a) => FoundSourceItems(a, rest, m);
    case _ =>
  }

  lemma {:induction false} FoundSourceFields(f: Fields, rest: Bytes, m: Marker)
    requires SourceFields(f)
    ensures FindField(f, rest, m).Some? ==> Source(FindField(f, rest, m).value.0)
    decreases f, 1
  {
    if f.Field? {
      FoundSource(f.value, AfterField(f.rest, rest), m);
      FoundSourceFields(f.rest, rest, m);
    }
  }

  lemma {:induction false} FoundSourceItems(a: Items, rest: Bytes, m: Marker)
    requires SourceItems(a)
    ensures FindItem(a, rest, m).Some? ==> Source(FindItem(a, rest, m).value.0)
    decreases a, 1
  {
    if a.Item? {
      FoundSource(a.head, AfterItem(a.tail, rest), m);
      FoundSourceItems(a.tail, rest, m);
    }
  }
}
