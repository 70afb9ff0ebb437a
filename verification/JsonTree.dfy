/** JSON texts as trees: a printer, a parser written from the grammar of RFC 8259, and their round trip.
    `json.Unmarshal` is modelled as `Unmarshal`, on texts without insignificant white space. */
module JsonTree {
  import opened Bytes
  import opened JsonString

  /** In a source tree `Str` holds the bytes between the quotes; in a decoded tree, the string itself.
      Numbers keep their spelling. */
  datatype Json =
    | Str(text: Bytes)
    | Num(digits: Bytes)
    | Obj(fields: Fields)
    | Arr(items: Items)
  datatype Fields = NoField | Field(key: Bytes, value: Json, rest: Fields)
  datatype Items = NoItem | Item(head: Json, tail: Items)

  // ------------------------------------------------------------------------------ printing

  /** `j` written in front of `rest`. */
  function Print(j: Json, rest: Bytes): Bytes
    decreases j, 0
  {
    match j
    case Str(t) => ['\"'] + (t + (['\"'] + rest))
    case Num(d) => d + rest
    case Obj(f) => ['{'] + PrintFields(f, rest)
    case Arr(a) => ['['] + PrintItems(a, rest)
  }

  /** The members and the closing brace. */
  function PrintFields(f: Fields, rest: Bytes): Bytes
    decreases f, 1
  {
    match f
    case NoField => ['}'] + rest
    case Field(k, v, next) => ['\"'] + (k + (['\"'] + ([':'] + Print(v, AfterField(next, rest)))))
  }

  /** What follows a member's value. */
  function AfterField(next: Fields, rest: Bytes): Bytes
    decreases next, 2
  {
    if next.NoField? then ['}'] + rest else [','] + PrintFields(next, rest)
  }

  /** The elements and the closing bracket. */
  function PrintItems(a: Items, rest: Bytes): Bytes
    decreases a, 1
  {
    match a
    case NoItem => [']'] + rest
    case Item(v, next) => Print(v, AfterItem(next, rest))
  }

  /** What follows an element. */
  function AfterItem(next: Items, rest: Bytes): Bytes
    decreases next, 2
  {
    if next.NoItem? then [']'] + rest else [','] + PrintItems(next, rest)
  }

  predicate IsNumber(d: Bytes) {
    && d != [] && (IsDigit(d[0]) || (d[0] == '-' && |d| > 1))
    && forall i :: 1 <= i < |d| ==> IsDigit(d[i])
  }

  /** Every text is a string body and every number is a number. */
  predicate Source(j: Json) {
    match j
    case Str(t) => IsBody(t)
    case Num(d) => IsNumber(d)
    case Obj(f) => SourceFields(f)
    case Arr(a) => SourceItems(a)
  }

  predicate SourceFields(f: Fields) {
    f.Field? ==> IsBody(f.key) && Source(f.value) && SourceFields(f.rest)
  }

  predicate SourceItems(a: Items) {
    a.Item? ==> Source(a.head) && SourceItems(a.tail)
  }

  // ------------------------------------------------------------------------------- parsing

  /** Number of digits at the front. */
  function DigitRun(s: Bytes): (n: nat)
    ensures n <= |s| && forall i :: 0 <= i < n ==> IsDigit(s[i])
    ensures n < |s| ==> !IsDigit(s[n])
  {
    if s == [] || !IsDigit(s[0]) then 0 else 1 + DigitRun(s[1..])
  }

  /** The value at the front of `s` and what follows it. */
  function ParseValue(s: Bytes): (r: Option<(Json, Bytes)>)
    ensures r.Some? ==> |r.value.1| < |s|
    decreases |s|, 0
  {
    if s == [] then None
    else if s[0] == '\"' then
      match SplitQuoted(s)
      case Some((t, rest)) => Some((Str(t), rest))
      case None => None
    else if s[0] == '{' then
      if |s| > 1 && s[1] == '}' then Some((Obj(NoField), s[2..]))
      else
        match ParseFields(s[1..])
        case Some((f, rest)) => Some((Obj(f), rest))
        case None => None
    else if s[0] == '[' then
      if |s| > 1 && s[1] == ']' then Some((Arr(NoItem), s[2..]))
      else
        match ParseItems(s[1..])
        case Some((a, rest)) => Some((Arr(a), rest))
        case None => None
    else if s[0] == '-' then
      var n := DigitRun(s[1..]);
      if n > 0 then Some((Num(s[..n + 1]), s[n + 1..])) else None
    else
      var n := DigitRun(s);
      if n > 0 then Some((Num(s[..n]), s[n..])) else None
  }

  /** Members up to and including the closing brace. */
  function ParseFields(s: Bytes): (r: Option<(Fields, Bytes)>)
    ensures r.Some? ==> |r.value.1| < |s|
    decreases |s|, 1
  {
    match SplitQuoted(s)
    case None => None
    case Some((key, t)) =>
      if t == [] || t[0] != ':' then None
      else
        match ParseValue(t[1..])
        case None => None
        case Some((v, u)) =>
          if u != [] && u[0] == '}' then Some((Field(key, v, NoField), u[1..]))
          else if u != [] && u[0] == ',' then WithField(key, v, ParseFields(u[1..]))
          else None
  }

  /** A member in front of the members parsed after it. */
  function WithField(k: Bytes, v: Json, r: Option<(Fields, Bytes)>): Option<(Fields, Bytes)> {
    match r
    case Some((rest, w)) => Some((Field(k, v, rest), w))
    case None => None
  }

  /** Elements up to and including the closing bracket. */
  function ParseItems(s: Bytes): (r: Option<(Items, Bytes)>)
    ensures r.Some? ==> |r.value.1| < |s|
    decreases |s|, 1
  {
    match ParseValue(s)
    case None => None
    case Some((v, u)) =>
      if u != [] && u[0] == ']' then Some((Item(v, NoItem), u[1..]))
      else if u != [] && u[0] == ',' then
        match ParseItems(u[1..])
        case Some((rest, w)) => Some((Item(v, rest), w))
        case None => None
      else None
  }

  /** The tree a whole text spells; None unless the text is one JSON value with balanced brackets. */
  function Parse(s: Bytes): Option<Json> {
    match ParseValue(s)
    case Some((j, rest)) => if rest == [] then Some(j) else None
    case None => None
  }

  // ---------------------------------------------------------------------------- round trip

  /** What may follow a printed value inside a document. */
  predicate Follows(rest: Bytes) {
    rest == [] || rest[0] == ',' || rest[0] == '}' || rest[0] == ']'
  }

  lemma {:induction false} DigitRunStops(d: Bytes, rest: Bytes)
    requires (forall i :: 0 <= i < |d| ==> IsDigit(d[i])) && Follows(rest)
    ensures DigitRun(d + rest) == |d|
  {
    if d == [] {
      assert d + rest == rest;
    } else {
      DigitRunStops(d[1..], rest);
      assert (d + rest)[1..] == d[1..] + rest;
    }
  }

  lemma ParseNumber(d: Bytes, rest: Bytes)
    requires IsNumber(d) && Follows(rest)
    ensures ParseValue(d + rest) == Some((Num(d), rest))
  {
    var s := d + rest;
    if d[0] == '-' {
      DigitRunStops(d[1..], rest);
      assert s[1..] == d[1..] + rest;
      assert s[..|d|] == d && s[|d|..] == rest;
    } else {
      DigitRunStops(d, rest);
      assert s[..|d|] == d && s[|d|..] == rest;
    }
  }

  /** A printed tree parses back to itself, whatever follows it in a document. */
  lemma {:induction false} ParsePrint(j: Json, rest: Bytes)
    requires Source(j) && Follows(rest)
    ensures ParseValue(Print(j, rest)) == Some((j, rest))
    decreases j, 0
  {
    match j
    case Str(t) => ParseText(t, rest);
    case Num(d) => ParseNumber(d, rest);
    case Obj(f) =>
      if f.Field? {
        ParsePrintFields(f, rest);
        ParseObject(f, rest);
      } else {
        ParseEmpty(rest);
      }
    case Arr(a) =>
      if a.Item? {
        PrintStart(a.head, AfterItem(a.tail, rest));
        ParsePrintItems(a, rest);
        ParseArray(a, rest);
      } else {
        ParseEmpty(rest);
      }
  }

  lemma ParseObject(f: Fields, rest: Bytes)
    requires f.Field? && ParseFields(PrintFields(f, rest)) == Some((f, rest))
    ensures ParseValue(Print(Obj(f), rest)) == Some((Obj(f), rest))
  {
    assert Print(Obj(f), rest)[1..] == PrintFields(f, rest);
  }

  lemma ParseArray(a: Items, rest: Bytes)
    requires a.Item? && PrintItems(a, rest) != [] && PrintItems(a, rest)[0] != ']'
    requires ParseItems(PrintItems(a, rest)) == Some((a, rest))
    ensures ParseValue(Print(Arr(a), rest)) == Some((Arr(a), rest))
  {
    assert Print(Arr(a), rest)[1..] == PrintItems(a, rest);
  }

  lemma ParseText(t: Bytes, rest: Bytes)
    requires IsBody(t)
    ensures ParseValue(Print(Str(t), rest)) == Some((Str(t), rest))
  {
    SplitPrinted(t, rest);
  }

  lemma ParseEmpty(rest: Bytes)
    ensures ParseValue(Print(Obj(NoField), rest)) == Some((Obj(NoField), rest))
    ensures ParseValue(Print(Arr(NoItem), rest)) == Some((Arr(NoItem), rest))
  {
    assert Print(Obj(NoField), rest)[2..] == rest;
    assert Print(Arr(NoItem), rest)[2..] == rest;
  }

  lemma PrintStart(j: Json, rest: Bytes)
    requires Source(j)
    ensures Print(j, rest) != [] && Print(j, rest)[0] != ']'
  {
  }

  /** One member parses on its own. */
  lemma ParseMember(s: Bytes, k: Bytes, body: Bytes, v: Json, tail: Bytes)
    requires SplitQuoted(s) == Some((k, [':'] + body))
    requires tail != [] && ParseValue(body) == Some((v, tail))
    ensures ParseFields(s) ==
            if tail[0] == '}' then Some((Field(k, v, NoField), tail[1..]))
            else if tail[0] == ',' then WithField(k, v, ParseFields(tail[1..]))
            else None
  {
    assert ([':'] + body)[1..] == body;
  }

  lemma {:induction false} ParsePrintFields(f: Fields, rest: Bytes)
    requires f.Field? && SourceFields(f)
    ensures ParseFields(PrintFields(f, rest)) == Some((f, rest))
    decreases f, 1
  {
    var tail := AfterField(f.rest, rest);
    ParsePrint(f.value, tail);
    var body := Print(f.value, tail);
    SplitPrinted(f.key, [':'] + body);
    ParseMember(PrintFields(f, rest), f.key, body, f.value, tail);
    if f.rest.Field? {
      assert tail[1..] == PrintFields(f.rest, rest);
      ParsePrintFields(f.rest, rest);
    } else {
      assert tail[1..] == rest;
    }
  }

  lemma {:induction false} ParsePrintItems(a: Items, rest: Bytes)
    requires a.Item? && SourceItems(a)
    ensures ParseItems(PrintItems(a, rest)) == Some((a, rest))
    decreases a, 1
  {
    var tail := AfterItem(a.tail, rest);
    ParsePrint(a.head, tail);
    if a.tail.Item? {
      assert tail[1..] == PrintItems(a.tail, rest);
      ParsePrintItems(a.tail, rest);
    } else {
      assert tail[1..] == rest;
    }
  }

  lemma ParsePrinted(j: Json)
    requires Source(j)
    ensures Parse(Print(j, [])) == Some(j)
  {
    ParsePrint(j, []);
  }

  // ------------------------------------------------------------------------------ decoding

  /** The tree with every text decoded; None when some text is not a string body. */
  function DecodeTree(j: Json): Option<Json> {
    match j
    case Str(t) => (match Decode(t) case Some(v) => Some(Str(v)) case None => None)
    case Num(d) => Some(j)
    case Obj(f) => (match DecodeFields(f) case Some(g) => Some(Obj(g)) case None => None)
    case Arr(a) => (match DecodeItems(a) case Some(b) => Some(Arr(b)) case None => None)
  }

  function DecodeFields(f: Fields): Option<Fields> {
    match f
    case NoField => Some(NoField)
    case Field(k, v, rest) =>
      match (Decode(k), DecodeTree(v), DecodeFields(rest))
      case (Some(k'), Some(v'), Some(rest')) => Some(Field(k', v', rest'))
      case _ => None
  }

  function DecodeItems(a: Items): Option<Items> {
    match a
    case NoItem => Some(NoItem)
    case Item(v, rest) =>
      match (DecodeTree(v), DecodeItems(rest))
      case (Some(v'), Some(rest')) => Some(Item(v', rest'))
      case _ => None
  }

  /** `json.Unmarshal` into a generic value. */
  function Unmarshal(s: Bytes): Option<Json> {
    match Parse(s)
    case Some(j) => DecodeTree(j)
    case None => None
  }

  /** Every string is UTF-8, so it can be written. */
  predicate Writable(j: Json) {
    match j
    case Str(t) => ValidUtf8(t)
    case Num(d) => IsNumber(d)
    case Obj(f) => WritableFields(f)
    case Arr(a) => WritableItems(a)
  }

  predicate WritableFields(f: Fields) {
    f.Field? ==> ValidUtf8(f.key) && Writable(f.value) && WritableFields(f.rest)
  }

  predicate WritableItems(a: Items) {
    a.Item? ==> Writable(a.head) && WritableItems(a.tail)
  }

  /** The source tree of a decoded tree: every string encoded. */
  function EncodeTree(j: Json): Json
    requires Writable(j)
  {
    match j
    case Str(t) => Str(Encode(t))
    case Num(d) => j
    case Obj(f) => Obj(EncodeFields(f))
    case Arr(a) => Arr(EncodeItems(a))
  }

  function EncodeFields(f: Fields): Fields
    requires WritableFields(f)
  {
    if f.NoField? then NoField else Field(Encode(f.key), EncodeTree(f.value), EncodeFields(f.rest))
  }

  function EncodeItems(a: Items): Items
    requires WritableItems(a)
  {
    if a.NoItem? then NoItem else Item(EncodeTree(a.head), EncodeItems(a.tail))
  }

  /** `json.Marshal` of a value whose strings are UTF-8. */
  function Marshal(j: Json): Bytes
    requires Writable(j)
  {
    Print(EncodeTree(j), [])
  }

  lemma {:induction false} EncodedTree(j: Json)
    requires Writable(j)
    ensures Source(EncodeTree(j)) && DecodeTree(EncodeTree(j)) == Some(j)
    decreases j, 0
  {
    match j
    case Str(t) => EncodeIsBody(t); RoundTrip(t);
    case Num(d) =>
    case Obj(f) => EncodedFields(f);
    case Arr(a) => EncodedItems(a);
  }

  lemma {:induction false} EncodedFields(f: Fields)
    requires WritableFields(f)
    ensures SourceFields(EncodeFields(f)) && DecodeFields(EncodeFields(f)) == Some(f)
    decreases f, 1
  {
    if f.Field? {
      EncodeIsBody(f.key);
      RoundTrip(f.key);
      EncodedTree(f.value);
      EncodedFields(f.rest);
    }
  }

  lemma {:induction false} EncodedItems(a: Items)
    requires WritableItems(a)
    ensures SourceItems(EncodeItems(a)) && DecodeItems(EncodeItems(a)) == Some(a)
    decreases a, 1
  {
    if a.Item? {
      EncodedTree(a.head);
      EncodedItems(a.tail);
    }
  }

  /** Unmarshalling what was marshalled gives the value back. */
  lemma UnmarshalMarshal(j: Json)
    requires Writable(j)
    ensures Unmarshal(Marshal(j)) == Some(j)
  {
    EncodedTree(j);
    ParsePrinted(EncodeTree(j));
  }
}
