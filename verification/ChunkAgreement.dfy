/** When the two chunk paths agree: exactly when the tool id is present, the stop reason is trimmed
    and the model name needs no escapes. */
module ChunkAgreement {
  import opened Bytes
  import opened JsonString
  import opened JsonTree
  import opened SseEvent
  import opened OpenAIChunk
  import opened ChunkRefinement

  // --------------------------------------------------------------- a model name that is not clean

  /** Decoding never lengthens a text, and keeps its length only when every byte means itself. */
  lemma {:induction false} DecodeShrinks(b: Bytes)
    requires Decode(b).Some?
    ensures |Decode(b).value| <= |b| && (|Decode(b).value| == |b| ==> Clean(b))
  {
    if b != [] {
      var (n, u) := Unit(b).value;
      DecodeShrinks(b[n..]);
    }
  }

  /** A string that swallows its closing quote ends at the next one. */
  lemma {:induction false} SwallowedQuote(m: Bytes, z: Bytes)
    ensures var k := BodyLength(m + (['\"'] + ([','] + (['\"'] + z))));
            k <= |m| || k == |m| + 2
  {
    var t := ['\"'] + ([','] + (['\"'] + z));
    var s := m + t;
    if m == [] {
      assert s == t;
    } else if m[0] == '\\' && |m| == 1 {
      var u := ['\"'] + z;
      assert BodyLength(u) == 0;
      assert ([','] + u)[1..] == u;
      assert BodyLength([','] + u) == 1;
      assert s[2..] == [','] + u;
    } else if m[0] != '\"' {
      var n := if m[0] == '\\' then 2 else 1;
      SwallowedQuote(m[n..], z);
      assert s[n..] == m[n..] + t;
    }
  }

  /** If `"m"` read in place decodes to `m` and is followed by a separator, then `m` is clean. */
  lemma ReadBackIsClean(m: Bytes, z: Bytes)
    requires z != [] && z[0] != '}' && z[0] != ','
    requires var r := SplitQuoted(['\"'] + (m + (['\"'] + ([','] + (['\"'] + z)))));
             r.Some? && Decode(r.value.0) == Some(m) && r.value.1 != [] && r.value.1[0] in "},"
    ensures Clean(m)
  {
    var t := ['\"'] + ([','] + (['\"'] + z));
    var s := ['\"'] + (m + t);
    assert s[1..] == m + t;
    var k := BodyLength(m + t);
    var b := (m + t)[..k];
    SwallowedQuote(m, z);
    DecodeShrinks(b);
    assert (m + t)[|m| + 3..] == z && (m + t)[..|m|] == m;
  }

  /** A member whose value is well formed is read, and the rest is read after it. */
  lemma ParseThrough(k: Bytes, v: Json, p: Bytes)
    requires IsBody(k) && Source(v)
    ensures ParseFields(['\"'] + (k + (['\"'] + ([':'] + Print(v, [','] + p))))) == WithField(k, v, ParseFields(p))
  {
    var tail := [','] + p;
    var body := Print(v, tail);
    ParsePrint(v, tail);
    SplitPrinted(k, [':'] + body);
    ParseMember(['\"'] + (k + (['\"'] + ([':'] + body))), k, body, v, tail);
    assert tail[1..] == p;
  }

  /** The fourth member of a parsed text, the chunk's model. */
  function Fourth(f: Fields): Option<Json> {
    if f.Field? && f.rest.Field? && f.rest.rest.Field? && f.rest.rest.rest.Field? then Some(f.rest.rest.rest.value) else None
  }

  lemma DecodedFourth(f: Fields)
    requires DecodeFields(f).Some? && Fourth(f).Some?
    ensures var g := DecodeFields(f).value;
            Fourth(g).Some? && DecodeTree(Fourth(f).value) == Some(Fourth(g).value)
  {
    var g := DecodeFields(f).value;
    assert DecodeFields(f.rest) == Some(g.rest);
    assert DecodeFields(f.rest.rest) == Some(g.rest.rest);
    assert DecodeFields(f.rest.rest.rest) == Some(g.rest.rest.rest);
  }

  /** The text of a chunk's members from the model on. */
  function FromModel(m: Bytes, z: Bytes): Bytes {
    ['\"'] + ("model" + (['\"'] + ([':'] + (['\"'] + (m + (['\"'] + ([','] + (['\"'] + z))))))))
  }

  /** Parsing from the model on: a text value followed by a separator, or nothing. */
  lemma ParseModelMember(m: Bytes, z: Bytes)
    requires ParseFields(FromModel(m, z)).Some?
    ensures var f := ParseFields(FromModel(m, z)).value.0;
            var r := SplitQuoted(['\"'] + (m + (['\"'] + ([','] + (['\"'] + z)))));
            f.Field? && r.Some? && f.value == Str(r.value.0) && r.value.1 != [] && r.value.1[0] in "},"
  {
    var q := ['\"'] + (m + (['\"'] + ([','] + (['\"'] + z))));
    var body := [':'] + q;
    PlainBytesAreBody("model");
    SplitPrinted("model", body);
    assert body[1..] == q;
  }

  /** Whatever the model text, the three members before it are read first. */
  lemma ParseUpToModel(id: Bytes, created: int, m: Bytes, z: Bytes)
    requires IsBody(id)
    ensures var p4 := FromModel(m, z);
            var p3 := ['\"'] + ("created" + (['\"'] + ([':'] + Print(Num(Decimal(created)), [','] + p4))));
            var p2 := ['\"'] + ("object" + (['\"'] + ([':'] + Print(Str("chat.completion.chunk"), [','] + p3))));
            var p1 := ['\"'] + ("id" + (['\"'] + ([':'] + Print(Str(id), [','] + p2))));
            ParseFields(p1) == WithField("id", Str(id), WithField("object", Str("chat.completion.chunk"),
                               WithField("created", Num(Decimal(created)), ParseFields(p4))))
  {
    var p4 := FromModel(m, z);
    var p3 := ['\"'] + ("created" + (['\"'] + ([':'] + Print(Num(Decimal(created)), [','] + p4))));
    var p2 := ['\"'] + ("object" + (['\"'] + ([':'] + Print(Str("chat.completion.chunk"), [','] + p3))));
    KeysAreBodies();
    ParseThrough("created", Num(Decimal(created)), p4);
    ParseThrough("object", Str("chat.completion.chunk"), p3);
    ParseThrough("id", Str(id), p2);
  }

  /** The choices of a chunk. */
  function Choices(choice: Fields): Json { Arr(Item(Obj(Field("index", Num("0"), choice)), NoItem)) }

  /** What is printed after the model member, from the first byte of the next key on. */
  function AfterModel(choice: Fields): (z: Bytes)
    ensures z != [] && z[0] == 'c'
  {
    "choices" + (['\"'] + ([':'] + Print(Choices(choice), AfterField(NoField, []))))
  }

  /** The printed chunk, cut at its model member. */
  lemma ChunkText(id: Bytes, created: int, m: Bytes, choice: Fields)
    ensures var p4 := FromModel(m, AfterModel(choice));
            var p3 := ['\"'] + ("created" + (['\"'] + ([':'] + Print(Num(Decimal(created)), [','] + p4))));
            var p2 := ['\"'] + ("object" + (['\"'] + ([':'] + Print(Str("chat.completion.chunk"), [','] + p3))));
            Print(Chunk(id, created, m, choice), []) ==
            ['{'] + (['\"'] + ("id" + (['\"'] + ([':'] + Print(Str(id), [','] + p2)))))
  {
    var z := AfterModel(choice);
    var f5 := Field("choices", Choices(choice), NoField);
    assert PrintFields(f5, []) == ['\"'] + z;
    var f4 := Field("model", Str(m), f5);
    assert PrintFields(f4, []) == FromModel(m, z);
    var f3 := Field("created", Num(Decimal(created)), f4);
    var f2 := Field("object", Str("chat.completion.chunk"), f3);
    var f1 := Field("id", Str(id), f2);
    assert Chunk(id, created, m, choice) == Obj(f1);
    assert PrintFields(f1, []) == ['\"'] + ("id" + (['\"'] + ([':'] + Print(Str(id), [','] + PrintFields(f2, [])))));
    assert PrintFields(f3, []) == ['\"'] + ("created" + (['\"'] + ([':'] + Print(Num(Decimal(created)), [','] + FromModel(m, z)))));
    assert PrintFields(f2, []) == ['\"'] + ("object" + (['\"'] + ([':'] + Print(Str("chat.completion.chunk"), [','] + PrintFields(f3, [])))));
  }

  /** The members read from the text of an object. */
  function Members(s: Bytes): Fields {
    if s == [] then NoField
    else
      match ParseFields(s[1..])
      case Some((f, _)) => f
      case None => NoField
  }

  lemma UnmarshalsObject(s: Bytes)
    requires |s| > 1 && s[0] == '{' && s[1] == '\"' && Unmarshal(s).Some?
    ensures ParseFields(s[1..]).Some? && DecodeFields(Members(s)).Some?
    ensures Unmarshal(s) == Some(Obj(DecodeFields(Members(s)).value))
  {
  }

  /** The members of a chunk text are three members, and what is read from the model on. */
  lemma ChunkMembers(id: Bytes, created: int, m: Bytes, choice: Fields)
    requires IsBody(id)
    ensures var s := Print(Chunk(id, created, m, choice), []);
            && |s| > 1 && s[0] == '{' && s[1] == '\"'
            && ParseFields(s[1..]) == WithField("id", Str(id), WithField("object", Str("chat.completion.chunk"),
                 WithField("created", Num(Decimal(created)), ParseFields(FromModel(m, AfterModel(choice))))))
  {
    var s := Print(Chunk(id, created, m, choice), []);
    ChunkText(id, created, m, choice);
    ParseUpToModel(id, created, m, AfterModel(choice));
    var p1 := s[1..];
    assert s == ['{'] + p1 && p1[0] == '\"';
  }

  /** A chunk text that unmarshals has been read up to its model, and past it. */
  lemma ParsedModel(id: Bytes, created: int, m: Bytes, choice: Fields)
    requires IsBody(id) && Unmarshal(Print(Chunk(id, created, m, choice), [])).Some?
    ensures var s := Print(Chunk(id, created, m, choice), []);
            DecodeFields(Members(s)).Some? && Unmarshal(s) == Some(Obj(DecodeFields(Members(s)).value))
    ensures var parsed := Members(Print(Chunk(id, created, m, choice), []));
            var r := SplitQuoted(['\"'] + (m + (['\"'] + ([','] + (['\"'] + AfterModel(choice))))));
            r.Some? && Fourth(parsed) == Some(Str(r.value.0)) && r.value.1 != [] && r.value.1[0] in "},"
  {
    ChunkMembers(id, created, m, choice);
    UnmarshalsObject(Print(Chunk(id, created, m, choice), []));
    ParseModelMember(m, AfterModel(choice));
  }

  /** A chunk text with an unescaped model name spells that name only if the name is clean. */
  lemma UncleanModel(id: Bytes, created: int, m: Bytes, choice: Fields, id': Bytes, choice': Fields)
    requires IsBody(id)
    requires Unmarshal(Print(Chunk(id, created, m, choice), [])) == Some(Chunk(id', created, m, choice'))
    ensures Clean(m)
  {
    ParsedModel(id, created, m, choice);
    DecodedFourth(Members(Print(Chunk(id, created, m, choice), [])));
    ReadBackIsClean(m, AfterModel(choice));
  }

  lemma KeysAreBodies()
    ensures IsBody("id") && IsBody("object") && IsBody("created") && Source(Str("chat.completion.chunk"))
  {
    PlainBytesAreBody("id");
    PlainBytesAreBody("object");
    PlainBytesAreBody("created");
    SpellsTag("chat.completion.chunk");
  }

  // ------------------------------------------------------------------------------ the theorem

  /** What a caller can check before asking for a chunk. */
  predicate Agreeable(e: Event, c: Context) {
    && (IsMessageStart(e) || Clean(c.model))
    && (e.StartToolUse? ==> e.id != "")
    && (e.MessageDelta? ==> Trimmed(e.stopReason))
  }

  lemma ReasonsAreTrimmed()
    ensures Trimmed("") && Trimmed("stop") && Trimmed("end_turn") && Trimmed("tool_use") && Trimmed("max_tokens")
    ensures Trimmed("refusal") && Trimmed("tool_calls") && Trimmed("length") && Trimmed("content_filter")
  {
    ShortEnd("stop");
    ShortEnd("end_turn");
    ShortEnd("tool_use");
    ShortEnd("max_tokens");
    ShortEnd("refusal");
    ShortEnd("tool_calls");
    ShortEnd("length");
    ShortEnd("content_filter");
  }

  lemma ShortEnd(s: Bytes)
    requires |s| > 2 && s[|s| - 1] >= 'a' && s[|s| - 1] <= 'z'
    ensures SpaceSizeAtEnd(s) == 0
  {
    assert s[|s| - 1..][0] == s[|s| - 1];
    assert s[|s| - 2..][1] == s[|s| - 1];
    assert s[|s| - 3..][2] == s[|s| - 1];
  }

  lemma TableKeepsTrimming(s: Bytes)
    ensures Trimmed(s) ==> Trimmed(ExactStopReason(s))
    ensures !Trimmed(s) ==> ExactStopReason(s) == s
  {
    ReasonsAreTrimmed();
  }

  lemma StopReasonTrimsFirst(s: Bytes)
    ensures StopReason(s) == ExactStopReason(TrimSpace(s))
  {
  }

  /** With or without trimming, the table gives the same answer exactly on trimmed reasons. */
  lemma TrimmingMatters(s: Bytes)
    ensures ExactStopReason(s) == StopReason(s) <==> Trimmed(s)
  {
    TrimSpaceTrims(s);
    StopReasonTrimsFirst(s);
    TableKeepsTrimming(s);
    TableKeepsTrimming(TrimSpace(s));
  }

  /** What the fast path's text spells. */
  lemma FastUnmarshals(e: Event, c: Context)
    requires Valid(e) && ValidUtf8(c.msgID) && RawChoice(e, c).Some?
    requires IsMessageStart(e) || Clean(c.model)
    ensures ExactChoice(e, c).Some?
    ensures Unmarshal(FastChunk(c, RawModel(e, c), RawChoice(e, c).value)) ==
            Some(Chunk(c.msgID, c.created, if IsMessageStart(e) then e.model else c.model, ExactChoice(e, c).value))
  {
    var model := if IsMessageStart(e) then e.model else c.model;
    SpellsID(c.msgID);
    if IsMessageStart(e) { SpellsText(model); } else { SpellsClean(model); }
    SpellsChoice(e, c);
    SpellsChunk(IDBody(c.msgID), c.msgID, c.created, RawModel(e, c), model, RawChoice(e, c).value, ExactChoice(e, c).value);
    ParsePrinted(Chunk(IDBody(c.msgID), c.created, RawModel(e, c), RawChoice(e, c).value));
  }

  /** The fast text with a hint that needs escapes is not the slow chunk. */
  lemma UncleanDisagrees(e: Event, c: Context)
    requires Valid(e) && ValidUtf8(c.msgID) && RawChoice(e, c).Some? && !IsMessageStart(e) && !Clean(c.model) && ChoiceOf(e, c).Some?
    ensures Unmarshal(FastChunk(c, c.model, RawChoice(e, c).value)) != Some(Chunk(c.msgID, c.created, c.model, SlowChoiceOf(e, c)))
  {
    SpellsID(c.msgID);
    if Unmarshal(FastChunk(c, c.model, RawChoice(e, c).value)) == Some(Chunk(c.msgID, c.created, c.model, SlowChoiceOf(e, c))) {
      UncleanModel(IDBody(c.msgID), c.created, c.model, RawChoice(e, c).value, c.msgID, SlowChoiceOf(e, c));
    }
  }

  lemma SlowIsChunk(e: Event, c: Context)
    requires Valid(e)
    ensures Slow(EventName(e), Data(e), c) ==
            if ChoiceOf(e, c).None? then None
            else Some(Chunk(c.msgID, c.created, if IsMessageStart(e) then e.model else c.model, SlowChoiceOf(e, c)))
  {
    SlowIs(e, c);
  }

  lemma RawAndChoice(e: Event, c: Context)
    requires Valid(e)
    ensures RawChoice(e, c).Some? <==> ChoiceOf(e, c).Some?
  {
  }

  /** On every printed event the fast path accepts exactly when the slow path does, and its text is one JSON
      value, with balanced brackets, equal to the slow path's chunk exactly when the event and the hint are
      agreeable. */
  lemma FastRefinesSlow(e: Event, c: Context)
    requires Valid(e) && ValidUtf8(c.msgID)
    ensures var fast, slow := Fast(EventName(e), Data(e), c), Slow(EventName(e), Data(e), c);
            && (fast.Some? <==> slow.Some?)
            && (fast.Some? ==> (Unmarshal(fast.value) == slow <==> Agreeable(e, c)))
  {
    FastIs(e, c);
    SlowIsChunk(e, c);
    RawAndChoice(e, c);
    if RawChoice(e, c).Some? { ChoicesAgree(e, c); }
  }

  lemma ChoicesAgree(e: Event, c: Context)
    requires Valid(e) && ValidUtf8(c.msgID) && RawChoice(e, c).Some? && ChoiceOf(e, c).Some?
    ensures Unmarshal(FastChunk(c, RawModel(e, c), RawChoice(e, c).value))
            == Some(Chunk(c.msgID, c.created, if IsMessageStart(e) then e.model else c.model, SlowChoiceOf(e, c)))
            <==> Agreeable(e, c)
  {
    var model := if IsMessageStart(e) then e.model else c.model;
    if IsMessageStart(e) || Clean(c.model) {
      FastUnmarshals(e, c);
      SameChoice(e, c);
      ChoiceShows(c.msgID, c.created, model, ExactChoice(e, c).value, SlowChoiceOf(e, c));
    } else {
      UncleanDisagrees(e, c);
    }
  }

  lemma ChoiceShows(id: Bytes, created: int, model: Bytes, f: Fields, g: Fields)
    ensures Chunk(id, created, model, f) == Chunk(id, created, model, g) <==> f == g
  {
  }

  /** The slow path's choice; an empty tool id is omitted. */
  function SlowChoiceOf(e: Event, c: Context): Fields
    requires ChoiceOf(e, c).Some?
  {
    if e.StartToolUse? && e.id == "" then ToolStartChoice(ToolIndex(c), None, e.name) else ChoiceOf(e, c).value
  }

  lemma SameFinish(a: Bytes, b: Bytes)
    ensures FinishChoice(a) == FinishChoice(b) <==> a == b
  {
    if FinishChoice(a) == FinishChoice(b) { assert FinishChoice(a).rest.value.text == FinishChoice(b).rest.value.text; }
  }

  lemma SameReason(s: Bytes)
    ensures FinishChoice(ExactStopReason(s)) == FinishChoice(StopReason(s)) <==> Trimmed(s)
  {
    TrimmingMatters(s);
    SameFinish(ExactStopReason(s), StopReason(s));
  }

  lemma IDShows(index: int, id: Bytes, name: Bytes)
    ensures ToolStartChoice(index, Some(id), name) != ToolStartChoice(index, None, name)
  {
    var a, b := ToolStartChoice(index, Some(id), name), ToolStartChoice(index, None, name);
    assert a.value.fields.value.items.head.fields.rest.key == "id";
    assert b.value.fields.value.items.head.fields.rest.key == "type";
    assert "id"[0] != "type"[0];
  }

  lemma SameChoice(e: Event, c: Context)
    requires ChoiceOf(e, c).Some? && ExactChoice(e, c).Some?
    ensures ExactChoice(e, c).value == SlowChoiceOf(e, c) <==>
            (e.StartToolUse? ==> e.id != "") && (e.MessageDelta? ==> Trimmed(e.stopReason))
  {
    if e.MessageDelta? {
      SameReason(e.stopReason);
    } else if e.StartToolUse? && e.id == "" {
      IDShows(ToolIndex(c), e.id, e.name);
    }
  }

  // ------------------------------------------------------------- events on which they differ

  /** Both paths accept the event, and their chunks differ. */
  predicate Differ(e: Event, c: Context)
    requires Valid(e)
  {
    var fast, slow := Fast(EventName(e), Data(e), c), Slow(EventName(e), Data(e), c);
    fast.Some? && slow.Some? && Unmarshal(fast.value) != slow
  }

  lemma DifferWhen(e: Event, c: Context)
    requires Valid(e) && ValidUtf8(c.msgID) && RawChoice(e, c).Some? && !Agreeable(e, c)
    ensures Differ(e, c)
  {
    FastIs(e, c);
    SlowIsChunk(e, c);
    FastRefinesSlow(e, c);
  }

  lemma OneByte(b: char)
    requires b < '\U{80}'
    ensures ValidUtf8([b])
  {
    assert [b][1..] == [];
  }

  /** A model hint with a quote, with any delta. */
  lemma QuotedHintDiffers(c: Context, text: Bytes)
    requires ValidUtf8(c.msgID) && ValidUtf8(text) && '\"' in c.model
    ensures Differ(DeltaText(0, text), c)
  {
    HasQuote(c.model);
    DifferWhen(DeltaText(0, text), c);
  }

  lemma HasQuote(s: Bytes)
    requires '\"' in s
    ensures !Clean(s)
  {
  }

  /** A tool block without an id. */
  lemma NamelessToolDiffers(c: Context, name: Bytes)
    requires ValidUtf8(c.msgID) && ValidUtf8(name)
    ensures Differ(StartToolUse(0, [], name), c)
  {
    DifferWhen(StartToolUse(0, [], name), c);
  }

  /** A stop reason that is not trimmed. */
  lemma PaddedReasonDiffers(c: Context, reason: Bytes, b: char)
    requires ValidUtf8(c.msgID) && reason == [b] && b == ' '
    ensures ValidUtf8(reason) && Differ(MessageDelta(reason, 0), c)
  {
    OneByte(b);
    assert SpaceSize(reason) == 1;
    DifferWhen(MessageDelta(reason, 0), c);
  }
}
