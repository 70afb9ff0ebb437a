/** Dedup keys of side-effect tool calls, the judgement of a call's input, and the seeding from history. */
module ToolDedup {
  import opened Bytes
  import opened JsonString
  import opened ToolPath
  import HandlerSpec
  import HandlerModes

  // ----------------------------------------------------------------------------- tool inputs

  /** The fields of a tool input, as `json.Unmarshal` leaves them; a raw value is empty when absent. */
  datatype Fields = Fields(
    command: Bytes, cmd: Bytes, filePath: Bytes, path: Bytes,
    content: Bytes, oldValue: Bytes, newValue: Bytes, isReadOnly: Option<bool>, isRisky: Option<bool>)

  /** The working directory; lower-casing, JSON reading, value normalisation, and the text classifiers. */
  datatype Text = Text(
    workdir: Bytes, lower: Bytes -> Bytes, decode: Bytes -> Option<Fields>, canonicalValue: Bytes -> Bytes,
    readOnlyText: Bytes -> bool, gitCommand: Bytes -> bool, failure: Bytes -> bool)

  /** The text that a raw value spells when it is a JSON string. */
  ghost function StringOf(raw: Bytes): Option<Bytes> {
    match SplitQuoted(raw)
    case Some((body, rest)) => if rest == [] && NoControl(body) then Decode(body) else None
    case None => None
  }

  /** What the standard library promises of it: lower-casing leaves small letters alone, and a JSON string is read as
      the text it spells. */
  ghost predicate Sound(x: Text) {
    && x.lower("") == "" && x.lower("bash") == "bash" && x.lower("write") == "write" && x.lower("edit") == "edit"
    && (forall raw :: StringOf(raw).Some? && ValidUtf8(StringOf(raw).value) ==> x.canonicalValue(raw) == StringOf(raw).value)
  }

  function NameKey(x: Text, name: Bytes): Bytes { x.lower(TrimSpace(name)) }

  predicate IsStructured(key: Bytes) {
    key == "edit" || key == "write" || key == "bash" || key == "read" || key == "glob" || key == "grep"
  }

  predicate IsSideEffect(key: Bytes) { key == "bash" || key == "write" || key == "edit" }

  function DecodeFields(x: Text, input: Bytes): Option<Fields> {
    x.decode(if TrimSpace(input) == "" then "{}" else TrimSpace(input))
  }

  function ResolvePath(f: Fields): Bytes {
    if TrimSpace(f.filePath) != "" then TrimSpace(f.filePath) else TrimSpace(f.path)
  }

  function Command(f: Fields): Bytes {
    if TrimSpace(f.command) != "" then TrimSpace(f.command) else TrimSpace(f.cmd)
  }

  predicate HasRequired(key: Bytes, f: Fields) {
    if key == "edit" then ResolvePath(f) != "" && f.oldValue != "" && f.newValue != ""
    else if key == "write" then ResolvePath(f) != "" && f.content != ""
    else if key == "bash" then Command(f) != ""
    else if key == "read" then ResolvePath(f) != ""
    else true
  }

  /** `isReadOnlyBashCommand`; the reading of the command text itself is `readOnlyText`. */
  predicate IsReadOnly(x: Text, f: Fields) {
    if f.isRisky == Some(true) then false
    else if f.isReadOnly.Some? then f.isReadOnly.value
    else x.readOnlyText(Command(f))
  }

  /** What a side-effect call does, apart from how its key is spelt. */
  datatype Effect = Run(command: Bytes) | WriteFile(path: Bytes, content: Bytes) | EditFile(path: Bytes, oldText: Bytes, newText: Bytes)

  function EffectOf(x: Text, key: Bytes, f: Fields): Option<Effect> {
    if key == "bash" then (if Command(f) == "" || IsReadOnly(x, f) then None else Some(Run(Command(f))))
    else FileEffect(x, key, f, Canonical(x.workdir, ResolvePath(f)))
  }

  /** What a call does to the file at a canonical path. */
  function FileEffect(x: Text, key: Bytes, f: Fields, path: Bytes): Option<Effect> {
    if key == "write" then
      if path == "" || f.content == "" then None else Some(WriteFile(path, x.canonicalValue(f.content)))
    else if key == "edit" then
      if path == "" || f.oldValue == "" || f.newValue == "" then None
      else Some(EditFile(path, x.canonicalValue(f.oldValue), x.canonicalValue(f.newValue)))
    else None
  }

  const NUL: Bytes := ['\0']

  function KeyOf(e: Effect): (k: Bytes)
    ensures k != ""
  {
    match e
    case Run(c) => "bash:" + c
    case WriteFile(p, c) => "write:" + (p + (NUL + c))
    case EditFile(p, a, b) => "edit:" + (p + (NUL + (a + (NUL + b))))
  }

  /** `sideEffectToolDedupKeyFromFields`: empty when the call is not deduplicated. */
  function DedupKey(x: Text, key: Bytes, f: Fields): Bytes {
    var e := EffectOf(x, key, f);
    if e.None? then "" else KeyOf(e.value)
  }

  /** `evaluateToolCallInput`: the dedup key of an acceptable call, None for a malformed one. */
  function Evaluate(x: Text, name: Bytes, input: Bytes): Option<Bytes> {
    var key := NameKey(x, name);
    if key == "" then None
    else if !IsStructured(key) then Some("")
    else
      var f := DecodeFields(x, input);
      if f.None? || !HasRequired(key, f.value) then None else Some(DedupKey(x, key, f.value))
  }

  /** The call is of this tool and its input has these fields. */
  predicate IsCall(x: Text, name: Bytes, input: Bytes, tool: Bytes, f: Fields) {
    && tool == x.lower(TrimSpace(name))
    && x.decode(if TrimSpace(input) == "" then "{}" else TrimSpace(input)) == Some(f)
  }

  /** The first of two texts that is not blank, trimmed. */
  function FirstText(a: Bytes, b: Bytes): Bytes { if TrimSpace(a) != "" then TrimSpace(a) else TrimSpace(b) }

  /** Something that the tool cannot do without is blank or absent. */
  predicate Lacking(tool: Bytes, f: Fields) {
    || tool == ""
    || (tool in {"edit", "write", "read"} && FirstText(f.filePath, f.path) == "")
    || (tool == "edit" && (f.oldValue == "" || f.newValue == ""))
    || (tool == "write" && f.content == "")
    || (tool == "bash" && FirstText(f.command, f.cmd) == "")
  }

  /** What the call says of itself decides, and the command text only when it says nothing. */
  predicate OnlyReads(x: Text, f: Fields) {
    f.isRisky != Some(true) && (f.isReadOnly == Some(true) || (f.isReadOnly.None? && x.readOnlyText(FirstText(f.command, f.cmd))))
  }

  /** A call is malformed exactly when it lacks something, and goes without a dedup key exactly when it is no side-effect
      tool, or a read-only command. */
  lemma WhichAreDeduplicated(x: Text, name: Bytes, input: Bytes, tool: Bytes, f: Fields)
    requires Sound(x) && IsCall(x, name, input, tool, f)
    ensures Evaluate(x, name, input).None? <==> Lacking(tool, f)
    ensures Evaluate(x, name, input) == Some("") <==>
      !Lacking(tool, f) && (tool !in {"bash", "write", "edit"} || (tool == "bash" && OnlyReads(x, f)))
  {
    assert IsStructured(tool) ==> HasRequired(tool, f) == !Lacking(tool, f);
    if IsStructured(tool) && !Lacking(tool, f) { WhichKeyless(x, tool, f); }
  }

  lemma WhichKeyless(x: Text, tool: Bytes, f: Fields)
    requires !Lacking(tool, f)
    ensures DedupKey(x, tool, f) == "" <==> tool !in {"bash", "write", "edit"} || (tool == "bash" && OnlyReads(x, f))
  {
    if tool == "write" || tool == "edit" {
      TrimAgain(f);
      CanonicalIsCanonical(x.workdir, ResolvePath(f));
      WhichFileKeyless(x, tool, f, Canonical(x.workdir, ResolvePath(f)));
    }
  }

  lemma WhichFileKeyless(x: Text, tool: Bytes, f: Fields, path: Bytes)
    requires tool in {"write", "edit"} && !Lacking(tool, f) && path != ""
    ensures FileEffect(x, tool, f, path).Some?
  {
  }

  /** Input that is no JSON object makes a call of the six known tools malformed. */
  lemma UnreadableIsMalformed(x: Text, name: Bytes, input: Bytes)
    requires x.decode(if TrimSpace(input) == "" then "{}" else TrimSpace(input)).None?
    ensures Evaluate(x, name, input).None? <==> x.lower(TrimSpace(name)) in {"", "edit", "write", "bash", "read", "glob", "grep"}
  {
  }

  lemma TrimAgain(f: Fields)
    requires ResolvePath(f) != ""
    ensures TrimSpace(ResolvePath(f)) != ""
  {
    TrimTwice(f.filePath);
    TrimTwice(f.path);
  }

  /** The handler judges calls by these functions. */
  ghost predicate Judges(env: HandlerSpec.Env, x: Text) { forall n, i :: env.evaluate(n, i) == Evaluate(x, n, i) }

  /** The handler's requirement that nameless calls are malformed. */
  lemma EvaluateNeedsName(x: Text, env: HandlerSpec.Env)
    requires Sound(x) && Judges(env, x)
    ensures HandlerModes.NamesNeeded(env)
  {
  }

  /** A call of a tool that is none of the known six is accepted whatever its input is, JSON or not. */
  lemma AnyInputPasses(x: Text, name: Bytes, input: Bytes)
    requires NameKey(x, name) != "" && !IsStructured(NameKey(x, name))
    ensures Evaluate(x, name, input) == Some("")
  {
  }

  // --------------------------------------------------------------------------- key collisions

  predicate NoNul(s: Bytes) { Lacks(s, '\0') }

  /** What reading JSON leaves is UTF-8. */
  predicate Readable(x: Text, f: Fields) {
    && ValidUtf8(f.filePath) && ValidUtf8(f.path) && ValidUtf8(x.canonicalValue(f.content))
    && ValidUtf8(x.canonicalValue(f.oldValue)) && ValidUtf8(x.canonicalValue(f.newValue))
  }

  predicate Does(x: Text, key: Bytes, f: Fields, e: Effect) { Readable(x, f) && EffectOf(x, key, f) == Some(e) }

  /** Some call has the effect. */
  ghost predicate CallEffect(x: Text, e: Effect) { exists key, f :: Does(x, key, f, e) }

  /** The paths that effects have. */
  function Paths(x: Text): Bytes -> bool { p => IsCanonical(x.workdir, p) }

  /** The text ahead of the NUL at `j` is such a path. */
  predicate CutsAt(paths: Bytes -> bool, k: Bytes, j: int) { 0 <= j < |k| && k[j] == '\0' && paths(k[..j]) }

  /** The key of a write can be cut into a canonical path and a content in another place; that of an edit too, or the old
      or the new text holds a NUL. */
  predicate Ambiguous(paths: Bytes -> bool, e: Effect) {
    match e
    case Run(_) => false
    case WriteFile(p, c) => exists j :: 0 <= j < |p| + 1 + |c| && j != |p| && CutsAt(paths, p + (NUL + c), j)
    case EditFile(p, a, b) => !NoNul(a) || !NoNul(b) || exists j :: 0 <= j < |p| && CutsAt(paths, p, j)
  }

  /** A canonical path, and UTF-8 throughout. */
  predicate Parts(paths: Bytes -> bool, e: Effect) {
    match e
    case Run(_) => true
    case WriteFile(p, c) => paths(p) && ValidUtf8(p) && ValidUtf8(c)
    case EditFile(p, a, b) => paths(p) && ValidUtf8(p) && ValidUtf8(a) && ValidUtf8(b)
  }

  lemma ResolvedUtf8(f: Fields)
    requires ValidUtf8(f.filePath) && ValidUtf8(f.path)
    ensures ValidUtf8(ResolvePath(f))
  {
    TrimSpaceUtf8(f.filePath);
    TrimSpaceUtf8(f.path);
  }

  lemma CallPath(x: Text, path: Bytes)
    requires ValidUtf8(path) && Canonical(x.workdir, path) != ""
    ensures Paths(x)(Canonical(x.workdir, path)) && ValidUtf8(Canonical(x.workdir, path))
  {
    CanonicalUtf8(x.workdir, path);
    CanonicalIsCanonical(x.workdir, path);
  }

  lemma CallHasParts(x: Text, e: Effect)
    requires CallEffect(x, e)
    ensures Parts(Paths(x), e)
  {
    var key, f :| Does(x, key, f, e);
    var path := Canonical(x.workdir, ResolvePath(f));
    ResolvedUtf8(f);
    if key != "bash" && path != "" {
      CallPath(x, ResolvePath(f));
      FileHasParts(x, key, f, path, Paths(x), e);
    }
  }

  lemma FileHasParts(x: Text, key: Bytes, f: Fields, path: Bytes, paths: Bytes -> bool, e: Effect)
    requires Readable(x, f) && paths(path) && ValidUtf8(path) && FileEffect(x, key, f, path) == Some(e)
    ensures Parts(paths, e)
  {
  }

  /** The fields of a call on `path` with the values as JSON strings. */
  function FieldsOf(path: Bytes, content: Bytes, oldText: Bytes, newText: Bytes): Fields
    requires ValidUtf8(content) && ValidUtf8(oldText) && ValidUtf8(newText)
  {
    Fields("", "", path, "", Quote(content), Quote(oldText), Quote(newText), None, None)
  }

  lemma QuoteIsRead(x: Text, s: Bytes)
    requires Sound(x) && ValidUtf8(s)
    ensures x.canonicalValue(Quote(s)) == s && Quote(s) != ""
  {
    EncodeIsBody(s);
    RoundTrip(s);
    SplitPrinted(Encode(s), []);
    assert Quote(s) == ['\"'] + (Encode(s) + (['\"'] + []));
    assert StringOf(Quote(s)) == Some(s);
  }

  lemma FieldsRead(x: Text, path: Bytes, content: Bytes, oldText: Bytes, newText: Bytes)
    requires Sound(x) && ValidUtf8(content) && ValidUtf8(oldText) && ValidUtf8(newText) && TrimSpace(path) != ""
    ensures var f, p := FieldsOf(path, content, oldText, newText), Canonical(x.workdir, path);
      && EffectOf(x, "write", f) == Some(WriteFile(p, content)) && EffectOf(x, "edit", f) == Some(EditFile(p, oldText, newText))
      && (ValidUtf8(path) ==> Readable(x, f))
  {
    var f := FieldsOf(path, content, oldText, newText);
    assert ResolvePath(f) == TrimSpace(path);
    TrimTwice(path);
    CanonicalIsCanonical(x.workdir, path);
    QuoteIsRead(x, content);
    QuoteIsRead(x, oldText);
    QuoteIsRead(x, newText);
  }

  lemma SpeltPath(x: Text, p: Bytes)
    requires Paths(x)(p) && ValidUtf8(p)
    ensures TrimSpace(Spelt(p)) != "" && ValidUtf8(Spelt(p)) && Canonical(x.workdir, Spelt(p)) == p
  {
    SpeltIsTrimmed(p);
    SpeltUtf8(p);
    EveryCanonical(x.workdir, p);
  }

  /** Every effect with such parts is that of a call. */
  lemma PartsHaveCall(x: Text, e: Effect)
    requires Sound(x) && Parts(Paths(x), e) && !e.Run?
    ensures CallEffect(x, e)
  {
    match e
    case WriteFile(p, c) => FileCall(x, "write", p, c, [], [], e);
    case EditFile(p, a, b) => FileCall(x, "edit", p, [], a, b, e);
  }

  lemma FileCall(x: Text, key: Bytes, p: Bytes, content: Bytes, oldText: Bytes, newText: Bytes, e: Effect)
    requires Sound(x) && Paths(x)(p) && ValidUtf8(p) && ValidUtf8(content) && ValidUtf8(oldText) && ValidUtf8(newText)
    requires (key == "write" && e == WriteFile(p, content)) || (key == "edit" && e == EditFile(p, oldText, newText))
    ensures CallEffect(x, e)
  {
    SpeltPath(x, p);
    FieldsRead(x, Spelt(p), content, oldText, newText);
    assert Does(x, key, FieldsOf(Spelt(p), content, oldText, newText), e);
  }

  function Nuls(s: Bytes): nat { if s == [] then 0 else (if s[0] == '\0' then 1 else 0) + Nuls(s[1..]) }

  lemma {:induction false} NulsAdd(a: Bytes, b: Bytes)
    ensures Nuls(a + b) == Nuls(a) + Nuls(b)
  {
    if a == [] { assert a + b == b; }
    else {
      assert (a + b)[1..] == a[1..] + b;
      NulsAdd(a[1..], b);
    }
  }

  lemma {:induction false} NulsNone(s: Bytes)
    ensures Nuls(s) == 0 <==> NoNul(s)
  {
    if s != [] {
      NulsNone(s[1..]);
      assert s == [s[0]] + s[1..];
    }
  }

  lemma NulsJoin(a: Bytes, b: Bytes)
    ensures Nuls(a + (NUL + b)) == Nuls(a) + (1 + Nuls(b))
  {
    NulsAdd(a, NUL + b);
    NulsAdd(NUL, b);
  }

  /** A text is cut at its first NUL. */
  function Cut(s: Bytes): (r: (Bytes, Bytes))
    requires !NoNul(s)
    ensures s == r.0 + (NUL + r.1)
  {
    if s[0] == '\0' then ([], s[1..])
    else
      var (x, y) := Cut(s[1..]);
      ([s[0]] + x, y)
  }

  /** Two texts joined by NULs, one of them free of them, are the same cut. */
  lemma SameCut(a: Bytes, b: Bytes, c: Bytes, d: Bytes)
    requires NoNul(a) && NoNul(b) && a + (NUL + b) == c + (NUL + d)
    ensures a == c && b == d
  {
    NulsJoin(a, b);
    NulsJoin(c, d);
    NulsNone(a);
    NulsNone(b);
    NulsNone(c);
    SplitsAt('\0', a, b, c, d);
  }

  lemma SplitsWhere(a: Bytes, b: Bytes, c: Bytes, d: Bytes)
    requires a + (NUL + b) == c + (NUL + d)
    ensures var k := a + (NUL + b); k[|c|] == '\0' && k[..|c|] == c && k[|c| + 1..] == d
    ensures |a| == |c| ==> a == c && b == d
    ensures |c| < |a| ==> a[|c|] == '\0' && a[..|c|] == c
    ensures |c| > |a| ==> c[|a|] == '\0' && c[..|a|] == a && b == c[|a| + 1..] + (NUL + d)
  {
    var k := a + (NUL + b);
    assert k == c + (NUL + d);
    assert k[..|c|] == c && k[|c| + 1..] == d && k[..|a|] == a && k[|a| + 1..] == b;
    if |c| > |a| { assert k[|a| + 1..] == c[|a| + 1..] + (NUL + d); }
  }

  /** The old and new text hold no NUL: no path can be longer. */
  lemma NoLongerPath(a: Bytes, b: Bytes, z: Bytes, c: Bytes, d: Bytes)
    requires NoNul(a) && NoNul(b)
    ensures a + (NUL + b) != z + (NUL + (c + (NUL + d)))
  {
    NulsJoin(a, b);
    NulsJoin(z, c + (NUL + d));
    NulsJoin(c, d);
    NulsNone(a);
    NulsNone(b);
  }

  /** The key of an effect that is not ambiguous tells it from the effects of all other calls. */
  lemma KeyTells(paths: Bytes -> bool, e: Effect, d: Effect)
    requires Parts(paths, d) && !Ambiguous(paths, e) && KeyOf(d) == KeyOf(e)
    ensures d == e
  {
    assert KeyOf(d)[0] == KeyOf(e)[0];
    match e
    case Run(c) => Unprefix("bash:", c, d.command);
    case WriteFile(p, c) =>
      Unprefix("write:", p + (NUL + c), d.path + (NUL + d.content));
      SplitsWhere(p, c, d.path, d.content);
      if |d.path| != |p| { assert CutsAt(paths, p + (NUL + c), |d.path|); }
    case EditFile(p, a, b) =>
      var rest := d.oldText + (NUL + d.newText);
      Unprefix("edit:", p + (NUL + (a + (NUL + b))), d.path + (NUL + rest));
      SplitsWhere(p, a + (NUL + b), d.path, rest);
      if |d.path| < |p| { assert CutsAt(paths, p, |d.path|); }
      else if |d.path| > |p| { NoLongerPath(a, b, d.path[|p| + 1..], d.oldText, d.newText); }
      else { SameCut(a, b, d.oldText, d.newText); }
  }

  /** Another effect with the same key. */
  ghost predicate Twin(paths: Bytes -> bool, e: Effect, d: Effect) { Parts(paths, d) && d != e && KeyOf(d) == KeyOf(e) }

  lemma JoinMoves(x: Bytes, y: Bytes, z: Bytes)
    ensures (x + (NUL + y)) + (NUL + z) == x + (NUL + (y + (NUL + z)))
  {
  }

  lemma NulUtf8(a: Bytes, b: Bytes)
    ensures ValidUtf8(a + (NUL + b)) <==> ValidUtf8(a) && ValidUtf8(b)
  {
    assert (NUL + b)[1..] == b;
    if ValidUtf8(a + (NUL + b)) { Utf8Splits(a, NUL + b); }
    if ValidUtf8(a) && ValidUtf8(b) { Utf8Joins(a, NUL + b); }
  }

  lemma WriteTwin(paths: Bytes -> bool, p: Bytes, c: Bytes, j: int)
    requires Parts(paths, WriteFile(p, c)) && j != |p| && CutsAt(paths, p + (NUL + c), j)
    ensures var k := p + (NUL + c); Twin(paths, WriteFile(p, c), WriteFile(k[..j], k[j + 1..]))
  {
    var k := p + (NUL + c);
    assert k == k[..j] + (NUL + k[j + 1..]);
    NulUtf8(p, c);
    NulUtf8(k[..j], k[j + 1..]);
    assert |k[..j]| != |p|;
  }

  lemma PathTwin(paths: Bytes -> bool, p: Bytes, a: Bytes, b: Bytes, j: int)
    requires Parts(paths, EditFile(p, a, b)) && CutsAt(paths, p, j)
    ensures Twin(paths, EditFile(p, a, b), EditFile(p[..j], p[j + 1..], a + (NUL + b)))
  {
    assert p == p[..j] + (NUL + p[j + 1..]);
    NulUtf8(p[..j], p[j + 1..]);
    NulUtf8(a, b);
    JoinMoves(p[..j], p[j + 1..], a + (NUL + b));
    assert |p[..j]| != |p|;
  }

  lemma OldTwin(paths: Bytes -> bool, p: Bytes, a: Bytes, b: Bytes)
    requires Parts(paths, EditFile(p, a, b)) && !NoNul(a)
    ensures Twin(paths, EditFile(p, a, b), EditFile(p, Cut(a).0, Cut(a).1 + (NUL + b)))
  {
    var (y, z) := Cut(a);
    NulUtf8(y, z);
    NulUtf8(z, b);
    JoinMoves(y, z, b);
    assert |y| != |a|;
  }

  lemma NewTwin(paths: Bytes -> bool, p: Bytes, a: Bytes, b: Bytes)
    requires Parts(paths, EditFile(p, a, b)) && !NoNul(b)
    ensures Twin(paths, EditFile(p, a, b), EditFile(p, a + (NUL + Cut(b).0), Cut(b).1))
  {
    var (y, z) := Cut(b);
    NulUtf8(y, z);
    NulUtf8(a, y);
    JoinMoves(a, y, z);
    assert |a + (NUL + y)| != |a|;
  }

  lemma HasTwin(paths: Bytes -> bool, e: Effect)
    requires Parts(paths, e) && Ambiguous(paths, e)
    ensures exists d :: Twin(paths, e, d)
  {
    match e
    case WriteFile(p, c) =>
      var j :| 0 <= j < |p| + 1 + |c| && j != |p| && CutsAt(paths, p + (NUL + c), j);
      WriteTwin(paths, p, c, j);
    case EditFile(p, a, b) => EditTwin(paths, p, a, b);
  }

  lemma EditTwin(paths: Bytes -> bool, p: Bytes, a: Bytes, b: Bytes)
    requires Parts(paths, EditFile(p, a, b)) && Ambiguous(paths, EditFile(p, a, b))
    ensures exists d :: Twin(paths, EditFile(p, a, b), d)
  {
    if !NoNul(a) { OldTwin(paths, p, a, b); }
    else if !NoNul(b) { NewTwin(paths, p, a, b); }
    else {
      var j :| 0 <= j < |p| && CutsAt(paths, p, j);
      PathTwin(paths, p, a, b, j);
    }
  }

  /** Some call with another effect has the same key as a call with this one, and would be dropped after it, if and only
      if its key is ambiguous: a write whose key can be cut after another canonical path, an edit with a NUL in the old
      or new text or after a canonical part of its path. */
  lemma SharesKeyIff(x: Text, e: Effect)
    requires Sound(x) && CallEffect(x, e)
    ensures (exists d :: CallEffect(x, d) && d != e && KeyOf(d) == KeyOf(e)) <==> Ambiguous(Paths(x), e)
  {
    CallHasParts(x, e);
    if Ambiguous(Paths(x), e) {
      HasTwin(Paths(x), e);
      var d :| Twin(Paths(x), e, d);
      assert KeyOf(d)[0] == KeyOf(e)[0];
      PartsHaveCall(x, d);
    } else {
      forall d | CallEffect(x, d) && KeyOf(d) == KeyOf(e) ensures d == e {
        CallHasParts(x, d);
        KeyTells(Paths(x), e, d);
      }
    }
  }

  /** The same file, when both are resolved against the working directory. */
  predicate SameFile(x: Text, f: Fields, g: Fields) {
    Canonical(x.workdir, FirstText(f.filePath, f.path)) == Canonical(x.workdir, FirstText(g.filePath, g.path))
  }

  /** Two calls of the tool with the same command, or on the same file with the same values. */
  predicate SameWork(x: Text, tool: Bytes, f: Fields, g: Fields) {
    && (tool == "bash" ==> FirstText(f.command, f.cmd) == FirstText(g.command, g.cmd))
    && (tool == "write" ==> SameFile(x, f, g) && x.canonicalValue(f.content) == x.canonicalValue(g.content))
    && (tool == "edit" ==> SameFile(x, f, g))
    && (tool == "edit" ==> x.canonicalValue(f.oldValue) == x.canonicalValue(g.oldValue))
    && (tool == "edit" ==> x.canonicalValue(f.newValue) == x.canonicalValue(g.newValue))
  }

  /** The file and the values joined by NULs. */
  function Spelling(x: Text, tool: Bytes, f: Fields): Bytes {
    var path := Canonical(x.workdir, FirstText(f.filePath, f.path));
    if tool == "bash" then FirstText(f.command, f.cmd)
    else if tool == "write" then path + ['\0'] + x.canonicalValue(f.content)
    else path + ['\0'] + x.canonicalValue(f.oldValue) + ['\0'] + x.canonicalValue(f.newValue)
  }

  /** The key of a deduplicated call names its tool and spells its work. */
  lemma KeySpells(x: Text, name: Bytes, input: Bytes, tool: Bytes, f: Fields)
    requires IsCall(x, name, input, tool, f) && Evaluate(x, name, input).Some? && Evaluate(x, name, input).value != ""
    ensures tool in {"bash", "write", "edit"} && Evaluate(x, name, input) == Some(tool + ([':'] + Spelling(x, tool, f)))
  {
    assert Evaluate(x, name, input) == Some(DedupKey(x, tool, f));
    EffectSpells(x, tool, f);
  }

  lemma EffectSpells(x: Text, tool: Bytes, f: Fields)
    requires EffectOf(x, tool, f).Some?
    ensures tool in {"bash", "write", "edit"} && DedupKey(x, tool, f) == tool + ([':'] + Spelling(x, tool, f))
  {
    if tool == "bash" { RunSpells(x, f); } else { FileSpells(x, tool, f, Canonical(x.workdir, ResolvePath(f))); }
  }

  lemma RunSpells(x: Text, f: Fields)
    requires EffectOf(x, "bash", f).Some?
    ensures DedupKey(x, "bash", f) == "bash" + ([':'] + Spelling(x, "bash", f))
  {
    Regroup("bash", Command(f));
  }

  lemma FileSpells(x: Text, tool: Bytes, f: Fields, path: Bytes)
    requires FileEffect(x, tool, f, path).Some? && path == Canonical(x.workdir, FirstText(f.filePath, f.path))
    ensures tool in {"write", "edit"} && KeyOf(FileEffect(x, tool, f, path).value) == tool + ([':'] + Spelling(x, tool, f))
  {
    match FileEffect(x, tool, f, path).value
    case WriteFile(p, c) => WriteSpells(p, c);
    case EditFile(p, a, b) => EditSpells(p, a, b);
  }

  lemma WriteSpells(p: Bytes, c: Bytes)
    ensures KeyOf(WriteFile(p, c)) == "write" + ([':'] + (p + ['\0'] + c))
  {
    assert p + ['\0'] + c == p + (NUL + c);
    Regroup("write", p + (NUL + c));
  }

  lemma EditSpells(p: Bytes, a: Bytes, b: Bytes)
    ensures KeyOf(EditFile(p, a, b)) == "edit" + ([':'] + (p + ['\0'] + a + ['\0'] + b))
  {
    assert p + ['\0'] + a + ['\0'] + b == p + (NUL + (a + (NUL + b)));
    Regroup("edit", p + (NUL + (a + (NUL + b))));
  }

  lemma Regroup(tool: Bytes, rest: Bytes)
    ensures (tool + ":") + rest == tool + ([':'] + rest)
  {
  }

  /** Two deduplicated calls have the same key if and only if they are of the same tool and spell the same work: two
      commands exactly when they are the same text. Those that do the same work always have; those of files without
      a NUL in the path or a value have only then. */
  lemma SameKeyIff(x: Text, name: Bytes, input: Bytes, tool: Bytes, f: Fields, name': Bytes, input': Bytes, tool': Bytes, g: Fields)
    requires IsCall(x, name, input, tool, f) && Evaluate(x, name, input).Some? && Evaluate(x, name, input).value != ""
    requires IsCall(x, name', input', tool', g) && Evaluate(x, name', input').Some? && Evaluate(x, name', input').value != ""
    ensures Evaluate(x, name, input) == Evaluate(x, name', input') <==> tool == tool' && Spelling(x, tool, f) == Spelling(x, tool, g)
    ensures tool == tool' && SameWork(x, tool, f, g) ==> Evaluate(x, name, input) == Evaluate(x, name', input')
    ensures Evaluate(x, name, input) == Evaluate(x, name', input') && NoNuls(x, tool, f) ==> tool == tool' && SameWork(x, tool, f, g)
  {
    KeySpells(x, name, input, tool, f);
    KeySpells(x, name', input', tool', g);
    var s, s' := Spelling(x, tool, f), Spelling(x, tool', g);
    if tool + ([':'] + s) == tool' + ([':'] + s') {
      assert (tool + ([':'] + s))[0] == (tool' + ([':'] + s'))[0];
      assert tool == tool';
      Unprefix(tool, [':'] + s, [':'] + s');
      Unprefix([':'], s, s');
      if NoNuls(x, tool, f) { SameSpelling(x, tool, f, g); }
    }
  }

  /** Neither the path nor a value of a write or an edit holds a NUL. */
  predicate NoNuls(x: Text, tool: Bytes, f: Fields) {
    && (tool in {"write", "edit"} ==> NoNul(Canonical(x.workdir, FirstText(f.filePath, f.path))))
    && (tool == "write" ==> NoNul(x.canonicalValue(f.content)))
    && (tool == "edit" ==> NoNul(x.canonicalValue(f.oldValue)) && NoNul(x.canonicalValue(f.newValue)))
  }

  lemma SameSpelling(x: Text, tool: Bytes, f: Fields, g: Fields)
    requires tool in {"bash", "write", "edit"} && NoNuls(x, tool, f) && Spelling(x, tool, f) == Spelling(x, tool, g)
    ensures SameWork(x, tool, f, g)
  {
    var p, q := Canonical(x.workdir, FirstText(f.filePath, f.path)), Canonical(x.workdir, FirstText(g.filePath, g.path));
    if tool == "write" {
      SameTwo(p, x.canonicalValue(f.content), q, x.canonicalValue(g.content));
    } else if tool == "edit" {
      SameThree(p, x.canonicalValue(f.oldValue), x.canonicalValue(f.newValue), q, x.canonicalValue(g.oldValue), x.canonicalValue(g.newValue));
    }
  }

  lemma SameTwo(p: Bytes, a: Bytes, q: Bytes, c: Bytes)
    requires NoNul(p) && NoNul(a) && p + ['\0'] + a == q + ['\0'] + c
    ensures p == q && a == c
  {
    assert p + ['\0'] + a == p + (NUL + a) && q + ['\0'] + c == q + (NUL + c);
    SameCut(p, a, q, c);
  }

  lemma SameThree(p: Bytes, a: Bytes, b: Bytes, q: Bytes, c: Bytes, d: Bytes)
    requires NoNul(p) && NoNul(a) && NoNul(b) && p + ['\0'] + a + ['\0'] + b == q + ['\0'] + c + ['\0'] + d
    ensures p == q && a == c && b == d
  {
    var r, s := a + (NUL + b), c + (NUL + d);
    assert p + ['\0'] + a + ['\0'] + b == p + (NUL + r) && q + ['\0'] + c + ['\0'] + d == q + (NUL + s);
    SplitsWhere(p, r, q, s);
    if |q| > |p| { NoLongerPath(a, b, q[|p| + 1..], c, d); }
    else { SameCut(a, b, c, d); }
  }

  /** Two edits of one file, replacing `a\0b` by `c` and `a` by `b\0c`: only the first is accepted. */
  lemma SecondEditDropped(x: Text, env: HandlerSpec.Env, t: HandlerSpec.Tools, name: Bytes, i: Bytes, j: Bytes,
                          path: Bytes, a: Bytes, b: Bytes, c: Bytes)
    requires Sound(x) && Judges(env, x) && NameKey(x, name) == "edit" && TrimSpace(path) != ""
    requires ValidUtf8([]) && ValidUtf8(a) && ValidUtf8(c) && ValidUtf8(a + (NUL + b)) && ValidUtf8(b + (NUL + c))
    requires DecodeFields(x, i) == Some(FieldsOf(path, [], a + (NUL + b), c))
    requires DecodeFields(x, j) == Some(FieldsOf(path, [], a, b + (NUL + c)))
    requires HandlerSpec.Accept(env, t, name, i).0
    ensures EffectOf(x, "edit", DecodeFields(x, i).value) != EffectOf(x, "edit", DecodeFields(x, j).value)
    ensures !HandlerSpec.Accept(env, HandlerSpec.Accept(env, t, name, i).1, name, j).0
  {
    var d, e := EditFile(Canonical(x.workdir, path), a + (NUL + b), c), EditFile(Canonical(x.workdir, path), a, b + (NUL + c));
    EditsCollide(d, e, a, b, c);
    EditKey(x, name, i, path, a + (NUL + b), c);
    EditKey(x, name, j, path, a, b + (NUL + c));
    SameKeyDropped(env, t, name, i, j, KeyOf(e));
  }

  lemma EditsCollide(d: Effect, e: Effect, a: Bytes, b: Bytes, c: Bytes)
    requires d.EditFile? && e == EditFile(d.path, a, b + (NUL + c)) && d == EditFile(d.path, a + (NUL + b), c)
    ensures KeyOf(d) == KeyOf(e) && d != e
  {
    JoinMoves(a, b, c);
    assert |a + (NUL + b)| > |a|;
  }

  lemma SameKeyDropped(env: HandlerSpec.Env, t: HandlerSpec.Tools, name: Bytes, i: Bytes, j: Bytes, key: Bytes)
    requires env.evaluate(name, i) == Some(key) && env.evaluate(name, j) == Some(key) && key != ""
    ensures HandlerSpec.Accept(env, t, name, i).0 ==> !HandlerSpec.Accept(env, HandlerSpec.Accept(env, t, name, i).1, name, j).0
  {
  }

  /** The key of an edit whose input has the texts as JSON strings. */
  lemma EditKey(x: Text, name: Bytes, input: Bytes, path: Bytes, oldText: Bytes, newText: Bytes)
    requires Sound(x) && NameKey(x, name) == "edit" && TrimSpace(path) != ""
    requires ValidUtf8([]) && ValidUtf8(oldText) && ValidUtf8(newText)
    requires DecodeFields(x, input) == Some(FieldsOf(path, [], oldText, newText))
    ensures var e := EditFile(Canonical(x.workdir, path), oldText, newText);
      Evaluate(x, name, input) == Some(KeyOf(e)) && EffectOf(x, "edit", DecodeFields(x, input).value) == Some(e)
  {
    FieldsRead(x, path, [], oldText, newText);
    FieldsRequired(x, path, oldText, newText);
  }

  lemma FieldsRequired(x: Text, path: Bytes, oldText: Bytes, newText: Bytes)
    requires ValidUtf8([]) && ValidUtf8(oldText) && ValidUtf8(newText) && TrimSpace(path) != ""
    ensures HasRequired("edit", FieldsOf(path, [], oldText, newText))
  {
    var f := FieldsOf(path, [], oldText, newText);
    assert ResolvePath(f) == TrimSpace(path) && f.oldValue[0] == '\"' && f.newValue[0] == '\"';
  }

  // -------------------------------------------------------------------------------- history

  datatype Role = User | Assistant | OtherRole

  datatype Part = TextPart(text: Bytes) | ToolUse(id: Bytes, name: Bytes, input: Bytes) | ToolResult(useID: Bytes, result: Bytes) | OtherPart

  datatype Content = Plain(text: Bytes) | Parts(parts: seq<Part>)

  datatype Message = Message(role: Role, content: Content)

  function PartsOf(m: Message): seq<Part> { if m.content.Parts? then m.content.parts else [] }

  /** `ExtractText` gives something. */
  predicate HasText(m: Message) {
    match m.content
    case Plain(t) => TrimSpace(t) != ""
    case Parts(ps) => exists k :: 0 <= k < |ps| && ps[k].TextPart? && TrimSpace(ps[k].text) != ""
  }

  /** The position of the last user text, -1 when there is none. */
  function LastUserText(ms: seq<Message>): (i: int)
    ensures -1 <= i < |ms|
  {
    if ms == [] then -1
    else if ms[|ms| - 1].role.User? && HasText(ms[|ms| - 1]) then |ms| - 1
    else LastUserText(ms[..|ms| - 1])
  }

  predicate IsUserText(m: Message) { m.role.User? && HasText(m) }

  lemma {:induction false} LastUserTextIs(ms: seq<Message>)
    ensures var i := LastUserText(ms); (i >= 0 ==> IsUserText(ms[i])) && forall k :: i < k < |ms| ==> !IsUserText(ms[k])
  {
    if ms != [] && !IsUserText(ms[|ms| - 1]) {
      var f := ms[..|ms| - 1];
      LastUserTextIs(f);
      assert forall k :: 0 <= k < |f| ==> ms[k] == f[k];
    }
  }

  /** A tool use of the history that can be seeded: its id and dedup key. */
  datatype Use = Use(id: Bytes, key: Bytes)

  /** `shouldPreseedSideEffectDedup`. */
  predicate MayPreseed(x: Text, key: Bytes, input: Bytes) {
    var f := DecodeFields(x, input);
    key != "bash" || f.None? || !x.gitCommand(Command(f.value))
  }

  function UseOf(x: Text, p: Part): Option<Use> {
    if !p.ToolUse? then None
    else
      var id, key := TrimSpace(p.id), NameKey(x, p.name);
      var f := DecodeFields(x, p.input);
      if id == "" || key == "" || !MayPreseed(x, key, p.input) || !IsSideEffect(key) || f.None? then None
      else
        var dedup := DedupKey(x, key, f.value);
        if dedup == "" then None else Some(Use(id, dedup))
  }

  /** A tool use of the history can be seeded exactly when it has an id and is a whole side-effect call, no read-only
      command and none of git; its key then names the tool and spells the work, as that of a new call does. */
  lemma WhichAreSeeded(x: Text, p: Part, tool: Bytes, f: Fields)
    requires Sound(x) && p.ToolUse? && IsCall(x, p.name, p.input, tool, f)
    ensures UseOf(x, p).Some? <==>
      && TrimSpace(p.id) != "" && tool in {"bash", "write", "edit"} && !Lacking(tool, f)
      && !(tool == "bash" && (OnlyReads(x, f) || x.gitCommand(FirstText(f.command, f.cmd))))
    ensures UseOf(x, p).Some? ==> UseOf(x, p).value == Use(TrimSpace(p.id), tool + ([':'] + Spelling(x, tool, f)))
  {
    UseIs(x, p, tool, f, TrimSpace(p.id));
    WhichHaveKeys(x, tool, f);
    if DedupKey(x, tool, f) != "" { EffectSpells(x, tool, f); }
  }

  lemma UseIs(x: Text, p: Part, tool: Bytes, f: Fields, id: Bytes)
    requires Sound(x) && p.ToolUse? && IsCall(x, p.name, p.input, tool, f) && id == TrimSpace(p.id)
    ensures UseOf(x, p) ==
      if id == "" || !IsSideEffect(tool) || (tool == "bash" && x.gitCommand(FirstText(f.command, f.cmd))) || DedupKey(x, tool, f) == "" then None
      else Some(Use(id, DedupKey(x, tool, f)))
  {
  }

  lemma WhichHaveKeys(x: Text, tool: Bytes, f: Fields)
    ensures DedupKey(x, tool, f) != "" <==> tool in {"bash", "write", "edit"} && !Lacking(tool, f) && !(tool == "bash" && OnlyReads(x, f))
  {
    if tool in {"bash", "write", "edit"} {
      if !Lacking(tool, f) { WhichKeyless(x, tool, f); } else { LackingIsKeyless(x, tool, f); }
    }
  }

  lemma LackingIsKeyless(x: Text, tool: Bytes, f: Fields)
    requires Lacking(tool, f) && tool in {"bash", "write", "edit"}
    ensures DedupKey(x, tool, f) == ""
  {
    if tool != "bash" && ResolvePath(f) == "" { BlankPath(x); }
  }

  lemma BlankPath(x: Text)
    ensures Canonical(x.workdir, "") == ""
  {
    CanonicalIsCanonical(x.workdir, "");
  }

  function UsesIn(x: Text, ps: seq<Part>): seq<Use> {
    if ps == [] then []
    else
      var u := UseOf(x, ps[|ps| - 1]);
      UsesIn(x, ps[..|ps| - 1]) + if u.Some? then [u.value] else []
  }

  /** The seedable tool uses of the assistant after position `from`, in order. */
  function Uses(x: Text, ms: seq<Message>, from: int): seq<Use> {
    if ms == [] then []
    else
      Uses(x, ms[..|ms| - 1], from) +
      if |ms| - 1 > from && ms[|ms| - 1].role.Assistant? then UsesIn(x, PartsOf(ms[|ms| - 1])) else []
  }

  /** A tool result: the id it answers and its text, trimmed. */
  datatype Answer = Answer(id: Bytes, text: Bytes)

  function AnswersIn(ps: seq<Part>): seq<Answer> {
    if ps == [] then []
    else
      var p := ps[|ps| - 1];
      AnswersIn(ps[..|ps| - 1]) + if p.ToolResult? then [Answer(TrimSpace(p.useID), TrimSpace(p.result))] else []
  }

  /** The tool results of the user after position `from`, in order. */
  function Answers(ms: seq<Message>, from: int): seq<Answer> {
    if ms == [] then []
    else
      Answers(ms[..|ms| - 1], from) +
      if |ms| - 1 > from && ms[|ms| - 1].role.User? then AnswersIn(PartsOf(ms[|ms| - 1])) else []
  }

  /** Use `k` is the last of its id. */
  predicate LastUse(uses: seq<Use>, id: Bytes, key: Bytes, k: int) {
    0 <= k < |uses| && uses[k] == Use(id, key) && forall j :: k < j < |uses| ==> uses[j].id != id
  }

  /** The last use of an id gives it its key. */
  predicate KeyIs(uses: seq<Use>, id: Bytes, key: Bytes) { exists k :: 0 <= k < |uses| && LastUse(uses, id, key, k) }

  predicate Succeeded(x: Text, a: Answer) { a.text != "" && !x.failure(a.text) }

  /** Result `k` is the last that refers to the key. */
  predicate LastAnswer(uses: seq<Use>, answers: seq<Answer>, key: Bytes, k: int) {
    0 <= k < |answers| && KeyIs(uses, answers[k].id, key) && forall j :: k < j < |answers| ==> !KeyIs(uses, answers[j].id, key)
  }

  /** The last result that refers to the key was a non-empty success. */
  predicate LastSucceeded(x: Text, uses: seq<Use>, answers: seq<Answer>, key: Bytes) {
    exists k :: 0 <= k < |answers| && LastAnswer(uses, answers, key, k) && answers[k].text != "" && !x.failure(answers[k].text)
  }

  /** What the history seeds. */
  predicate Seeded(x: Text, ms: seq<Message>, key: Bytes) {
    var from := LastUserText(ms);
    from >= 0 && LastSucceeded(x, Uses(x, ms, from), Answers(ms, from), key)
  }

  // ------------------------------------------------------------------------ the loops' values

  function KeyMap(uses: seq<Use>): map<Bytes, Bytes> {
    if uses == [] then map[] else KeyMap(uses[..|uses| - 1])[uses[|uses| - 1].id := uses[|uses| - 1].key]
  }

  function Judge(x: Text, keys: map<Bytes, Bytes>, done: set<Bytes>, a: Answer): set<Bytes> {
    if a.id !in keys then done
    else if Succeeded(x, a) then done + {keys[a.id]}
    else done - {keys[a.id]}
  }

  function Successes(x: Text, keys: map<Bytes, Bytes>, answers: seq<Answer>): set<Bytes> {
    if answers == [] then {} else Judge(x, keys, Successes(x, keys, answers[..|answers| - 1]), answers[|answers| - 1])
  }

  lemma LastUseSnoc(uses: seq<Use>, u: Use, id: Bytes, key: Bytes)
    ensures KeyIs(uses + [u], id, key) <==> if u.id == id then u.key == key else KeyIs(uses, id, key)
  {
    var all := uses + [u];
    if u.id == id {
      assert all[|uses|] == u;
      if u.key == key { assert LastUse(all, id, key, |uses|); }
      if KeyIs(all, id, key) { var k :| 0 <= k < |all| && LastUse(all, id, key, k); }
    } else {
      if KeyIs(uses, id, key) {
        var k :| 0 <= k < |uses| && LastUse(uses, id, key, k);
        assert LastUse(all, id, key, k);
      }
      if KeyIs(all, id, key) {
        var k :| 0 <= k < |all| && LastUse(all, id, key, k);
        assert all[k] == uses[k];
        assert forall j :: k < j < |uses| ==> uses[j] == all[j];
        assert LastUse(uses, id, key, k);
      }
    }
  }

  lemma {:induction false} KeyMapIsLast(uses: seq<Use>, id: Bytes, key: Bytes)
    ensures (id in KeyMap(uses) && KeyMap(uses)[id] == key) <==> KeyIs(uses, id, key)
  {
    if uses != [] {
      var front, last := uses[..|uses| - 1], uses[|uses| - 1];
      KeyMapIsLast(front, id, key);
      LastUseSnoc(front, last, id, key);
      assert front + [last] == uses;
    }
  }

  lemma LastAnswerSnoc(x: Text, uses: seq<Use>, answers: seq<Answer>, a: Answer, key: Bytes)
    ensures LastSucceeded(x, uses, answers + [a], key)
      <==> if KeyIs(uses, a.id, key) then Succeeded(x, a) else LastSucceeded(x, uses, answers, key)
  {
    var all := answers + [a];
    if KeyIs(uses, a.id, key) {
      if Succeeded(x, a) { assert LastAnswer(uses, all, key, |answers|); }
      if LastSucceeded(x, uses, all, key) {
        var k :| 0 <= k < |all| && LastAnswer(uses, all, key, k) && Succeeded(x, all[k]);
        assert all[|answers|] == a;
      }
    } else {
      if LastSucceeded(x, uses, answers, key) {
        var k :| 0 <= k < |answers| && LastAnswer(uses, answers, key, k) && Succeeded(x, answers[k]);
        assert LastAnswer(uses, all, key, k);
      }
      if LastSucceeded(x, uses, all, key) {
        var k :| 0 <= k < |all| && LastAnswer(uses, all, key, k) && Succeeded(x, all[k]);
        assert all[k] == answers[k];
        assert forall j :: k < j < |answers| ==> answers[j] == all[j];
        assert LastAnswer(uses, answers, key, k);
      }
    }
  }

  lemma {:induction false} SuccessesAreLast(x: Text, uses: seq<Use>, answers: seq<Answer>, key: Bytes)
    ensures key in Successes(x, KeyMap(uses), answers) <==> LastSucceeded(x, uses, answers, key)
  {
    if answers != [] {
      var front, last := answers[..|answers| - 1], answers[|answers| - 1];
      SuccessesAreLast(x, uses, front, key);
      KeyMapIsLast(uses, last.id, key);
      LastAnswerSnoc(x, uses, front, last, key);
      assert front + [last] == answers;
    }
  }

  // ------------------------------------------------------------------------------ the method

  lemma ButLast<T>(s: seq<T>, i: nat)
    requires i < |s|
    ensures s[..i + 1] == s[..i] + [s[i]] && s[..i + 1][..i] == s[..i]
  {
  }

  method FindLastUserText(ms: seq<Message>) returns (last: int)
    ensures last == LastUserText(ms)
  {
    last := -1;
    var i := 0;
    while i < |ms|
      invariant 0 <= i <= |ms| && last == LastUserText(ms[..i])
    {
      LastUserTextSnoc(ms, i);
      if ms[i].role.User? && HasText(ms[i]) { last := i; }
      i := i + 1;
    }
    assert ms[..|ms|] == ms;
  }

  lemma LastUserTextSnoc(ms: seq<Message>, i: nat)
    requires i < |ms|
    ensures LastUserText(ms[..i + 1]) == if ms[i].role.User? && HasText(ms[i]) then i else LastUserText(ms[..i])
  {
    ButLast(ms, i);
  }

  lemma KeyMapSnoc(uses: seq<Use>, u: Use)
    ensures KeyMap(uses + [u]) == KeyMap(uses)[u.id := u.key]
  {
    assert (uses + [u])[..|uses|] == uses;
  }

  lemma UsesInSnoc(x: Text, base: seq<Use>, ps: seq<Part>, j: nat)
    requires j < |ps|
    ensures base + UsesIn(x, ps[..j + 1]) == base + UsesIn(x, ps[..j]) + if UseOf(x, ps[j]).Some? then [UseOf(x, ps[j]).value] else []
  {
    ButLast(ps, j);
  }

  lemma UsesSnoc(x: Text, ms: seq<Message>, from: int, i: nat)
    requires i < |ms|
    ensures Uses(x, ms[..i + 1], from)
      == Uses(x, ms[..i], from) + if i > from && ms[i].role.Assistant? then UsesIn(x, PartsOf(ms[i])) else []
  {
    ButLast(ms, i);
  }

  lemma KeyMapStep(x: Text, base: seq<Use>, ps: seq<Part>, j: nat, u: Option<Use>)
    requires j < |ps| && u == UseOf(x, ps[j])
    ensures var uses := base + UsesIn(x, ps[..j]);
      KeyMap(base + UsesIn(x, ps[..j + 1])) == if u.Some? then KeyMap(uses)[u.value.id := u.value.key] else KeyMap(uses)
  {
    var uses := base + UsesIn(x, ps[..j]);
    UsesInSnoc(x, base, ps, j);
    if u.Some? { KeyMapSnoc(uses, u.value); } else { assert uses + [] == uses; }
  }

  /** The candidates of one assistant message. */
  method CollectFrom(x: Text, candidates0: map<Bytes, Bytes>, ps: seq<Part>, ghost base: seq<Use>) returns (candidates: map<Bytes, Bytes>)
    requires candidates0 == KeyMap(base)
    ensures candidates == KeyMap(base + UsesIn(x, ps))
  {
    candidates := candidates0;
    assert base + [] == base;
    var j := 0;
    while j < |ps|
      invariant 0 <= j <= |ps| && candidates == KeyMap(base + UsesIn(x, ps[..j]))
    {
      var u := UseOf(x, ps[j]);
      KeyMapStep(x, base, ps, j, u);
      if u.Some? { candidates := candidates[u.value.id := u.value.key]; }
      j := j + 1;
    }
    assert ps[..|ps|] == ps;
  }

  method CollectCandidates(x: Text, ms: seq<Message>, from: int) returns (candidates: map<Bytes, Bytes>)
    ensures candidates == KeyMap(Uses(x, ms, from))
  {
    candidates := map[];
    var i := 0;
    while i < |ms|
      invariant 0 <= i <= |ms| && candidates == KeyMap(Uses(x, ms[..i], from))
    {
      UsesSnoc(x, ms, from, i);
      if i > from && ms[i].role.Assistant? {
        candidates := CollectFrom(x, candidates, PartsOf(ms[i]), Uses(x, ms[..i], from));
      } else {
        assert Uses(x, ms[..i], from) + [] == Uses(x, ms[..i], from);
      }
      i := i + 1;
    }
    assert ms[..|ms|] == ms;
  }

  lemma SuccessesSnoc(x: Text, keys: map<Bytes, Bytes>, answers: seq<Answer>, a: Answer)
    ensures Successes(x, keys, answers + [a]) == Judge(x, keys, Successes(x, keys, answers), a)
  {
    assert (answers + [a])[..|answers|] == answers;
  }

  lemma AnswersInSnoc(base: seq<Answer>, ps: seq<Part>, j: nat)
    requires j < |ps|
    ensures base + AnswersIn(ps[..j + 1])
      == base + AnswersIn(ps[..j]) + if ps[j].ToolResult? then [Answer(TrimSpace(ps[j].useID), TrimSpace(ps[j].result))] else []
  {
    ButLast(ps, j);
  }

  lemma AnswersSnoc(ms: seq<Message>, from: int, i: nat)
    requires i < |ms|
    ensures Answers(ms[..i + 1], from) == Answers(ms[..i], from) + if i > from && ms[i].role.User? then AnswersIn(PartsOf(ms[i])) else []
  {
    ButLast(ms, i);
  }

  /** The results of one user message. */
  method JudgeFrom(x: Text, candidates: map<Bytes, Bytes>, keys0: set<Bytes>, ps: seq<Part>, ghost base: seq<Answer>) returns (keys: set<Bytes>)
    requires keys0 == Successes(x, candidates, base)
    ensures keys == Successes(x, candidates, base + AnswersIn(ps))
  {
    keys := keys0;
    assert base + [] == base;
    var j := 0;
    while j < |ps|
      invariant 0 <= j <= |ps| && keys == Successes(x, candidates, base + AnswersIn(ps[..j]))
    {
      AnswersInSnoc(base, ps, j);
      if ps[j].ToolResult? {
        var id, text := TrimSpace(ps[j].useID), TrimSpace(ps[j].result);
        SuccessesSnoc(x, candidates, base + AnswersIn(ps[..j]), Answer(id, text));
        if id in candidates {
          if text == "" || x.failure(text) { keys := keys - {candidates[id]}; } else { keys := keys + {candidates[id]}; }
        }
      } else {
        assert base + AnswersIn(ps[..j]) + [] == base + AnswersIn(ps[..j]);
      }
      j := j + 1;
    }
    assert ps[..|ps|] == ps;
  }

  method CollectSuccesses(x: Text, candidates: map<Bytes, Bytes>, ms: seq<Message>, from: int) returns (keys: set<Bytes>)
    ensures keys == Successes(x, candidates, Answers(ms, from))
  {
    keys := {};
    var i := 0;
    while i < |ms|
      invariant 0 <= i <= |ms| && keys == Successes(x, candidates, Answers(ms[..i], from))
    {
      AnswersSnoc(ms, from, i);
      if i > from && ms[i].role.User? {
        keys := JudgeFrom(x, candidates, keys, PartsOf(ms[i]), Answers(ms[..i], from));
      } else {
        assert Answers(ms[..i], from) + [] == Answers(ms[..i], from);
      }
      i := i + 1;
    }
    assert ms[..|ms|] == ms;
  }

  /** `seedSideEffectDedupFromMessages`: a key is seeded exactly when the last tool result after the last user
      text that refers to it was a non-empty success. */
  method SeedFromMessages(x: Text, ms: seq<Message>) returns (seeds: set<Bytes>)
    ensures forall key :: key in seeds <==> Seeded(x, ms, key)
  {
    var from := FindLastUserText(ms);
    if from < 0 { return {}; }
    var candidates := CollectCandidates(x, ms, from);
    seeds := CollectSuccesses(x, candidates, ms, from);
    forall key ensures key in seeds <==> Seeded(x, ms, key) {
      SuccessesAreLast(x, Uses(x, ms, from), Answers(ms, from), key);
    }
  }
}
