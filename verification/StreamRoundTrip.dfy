/** From events to the wire and back: what a client parses is what the handler wrote. */
module StreamRoundTrip {
  import opened Bytes
  import opened JsonString
  import opened JsonTree
  import opened MarkerSearch
  import opened SseEvent
  import opened ChunkRefinement
  import opened SseFraming

  // --------------------------------------------- printed documents meet the framing precondition

  lemma {:induction false} DecodableHasNoControl(b: Bytes)
    requires Decode(b).Some? && IsBody(b)
    ensures NoNewline(b)
  {
    if b != [] {
      var (n, u) := Unit(b).value;
      if b[0] == '\\' && n == 2 && ShortEscape(b[1]).Some? {
        assert b[1] != '\n';
      }
      UnitBody(b);
      DecodableHasNoControl(b[n..]);
      forall i | 0 <= i < |b| ensures b[i] != '\n' {
        if i >= n { assert b[i] == b[n..][i - n]; }
      }
    }
  }

  /** A decodable unit at the front of a body is printable and leaves a body behind it. */
  lemma UnitBody(b: Bytes)
    requires b != [] && IsBody(b) && Unit(b).Some?
    ensures IsBody(b[Unit(b).value.0..]) && forall i :: 0 <= i < Unit(b).value.0 ==> b[i] != '\n'
  {
    var n := Unit(b).value.0;
    if n >= 6 { HexTail(b); }
    if n == 12 { assert b[6..][..6] == b[6..12]; HexTail(b[6..]); assert b[6..][6..] == b[12..]; }
  }

  lemma HexTail(b: Bytes)
    requires IsBody(b) && UnicodeEscape(b).Some?
    ensures IsBody(b[6..]) && forall i :: 0 <= i < 6 ==> b[i] != '\n'
  {
    assert IsBody(b[2..]) && IsBody(b[2..][1..]) && b[2..][1..] == b[3..];
    assert IsBody(b[3..][1..]) && b[3..][1..] == b[4..];
    assert IsBody(b[4..][1..]) && b[4..][1..] == b[5..];
    assert IsBody(b[5..][1..]) && b[5..][1..] == b[6..];
  }

  lemma {:induction false} PrintNoNewline(j: Json, rest: Bytes)
    requires Source(j) && DecodeTree(j).Some? && NoNewline(rest)
    ensures NoNewline(Print(j, rest))
    decreases j, 0
  {
    match j
    case Str(t) => DecodableHasNoControl(t);
    case Num(d) =>
    case Obj(f) => PrintFieldsNoNewline(f, rest);
    case Arr(a) => PrintItemsNoNewline(a, rest);
  }

  lemma {:induction false} PrintFieldsNoNewline(f: Fields, rest: Bytes)
    requires SourceFields(f) && DecodeFields(f).Some? && NoNewline(rest)
    ensures NoNewline(PrintFields(f, rest))
    decreases f, 1
  {
    if f.Field? {
      if f.rest.Field? { PrintFieldsNoNewline(f.rest, rest); }
      DecodableHasNoControl(f.key);
      PrintNoNewline(f.value, AfterField(f.rest, rest));
    }
  }

  lemma {:induction false} PrintItemsNoNewline(a: Items, rest: Bytes)
    requires SourceItems(a) && DecodeItems(a).Some? && NoNewline(rest)
    ensures NoNewline(PrintItems(a, rest))
    decreases a, 1
  {
    if a.Item? {
      if a.tail.Item? { PrintItemsNoNewline(a.tail, rest); }
      PrintNoNewline(a.head, AfterItem(a.tail, rest));
    }
  }

  predicate EndsWith(s: Bytes, t: Bytes) { |s| >= |t| && s[|s| - |t|..] == t }

  lemma {:induction false} PrintEnds(j: Json, rest: Bytes)
    ensures EndsWith(Print(j, rest), rest)
    decreases j, 0
  {
    match j
    case Str(t) =>
      EndsAfter(['\"'], rest, rest);
      EndsAfter(t, ['\"'] + rest, rest);
      EndsAfter(['\"'], t + (['\"'] + rest), rest);
    case Num(d) => EndsAfter(d, rest, rest);
    case Obj(f) =>
      PrintFieldsEnds(f, rest);
      EndsAfter(['{'], PrintFields(f, rest), rest);
    case Arr(a) =>
      PrintItemsEnds(a, rest);
      EndsAfter(['['], PrintItems(a, rest), rest);
  }

  lemma EndsAfter(a: Bytes, b: Bytes, t: Bytes)
    requires EndsWith(b, t)
    ensures EndsWith(a + b, t)
  {
    assert (a + b)[|a + b| - |t|..] == b[|b| - |t|..];
  }

  /** A printed member ends as what follows its value. */
  lemma MemberEnds(k: Bytes, body: Bytes, t: Bytes)
    requires EndsWith(body, t)
    ensures EndsWith(['\"'] + (k + (['\"'] + ([':'] + body))), t)
  {
    EndsAfter([':'], body, t);
    EndsAfter(['\"'], [':'] + body, t);
    EndsAfter(k, ['\"'] + ([':'] + body), t);
    EndsAfter(['\"'], k + (['\"'] + ([':'] + body)), t);
  }

  lemma {:induction false} PrintFieldsEnds(f: Fields, rest: Bytes)
    ensures EndsWith(PrintFields(f, rest), ['}'] + rest) && EndsWith(PrintFields(f, rest), rest)
    decreases f, 1
  {
    EndsAfter(['}'], rest, rest);
    if f.Field? {
      var tail := AfterField(f.rest, rest);
      PrintEnds(f.value, tail);
      if f.rest.Field? {
        PrintFieldsEnds(f.rest, rest);
        EndsAfter([','], PrintFields(f.rest, rest), ['}'] + rest);
      }
      assert EndsWith(tail, ['}'] + rest);
      EndsTransitively(Print(f.value, tail), tail, ['}'] + rest);
      MemberEnds(f.key, Print(f.value, tail), ['}'] + rest);
    }
    EndsTransitively(PrintFields(f, rest), ['}'] + rest, rest);
  }

  lemma EndsTransitively(s: Bytes, t: Bytes, u: Bytes)
    requires EndsWith(s, t) && EndsWith(t, u)
    ensures EndsWith(s, u)
  {
    assert s[|s| - |u|..] == s[|s| - |t|..][|t| - |u|..];
  }

  lemma {:induction false} PrintItemsEnds(a: Items, rest: Bytes)
    ensures EndsWith(PrintItems(a, rest), rest)
    decreases a, 1
  {
    if a.Item? {
      var tail := AfterItem(a.tail, rest);
      PrintEnds(a.head, tail);
      if a.tail.Item? {
        PrintItemsEnds(a.tail, rest);
        EndsAfter([','], PrintItems(a.tail, rest), rest);
      } else {
        EndsAfter([']'], rest, rest);
      }
      EndsTransitively(Print(a.head, tail), tail, rest);
    } else {
      EndsAfter([']'], rest, rest);
    }
  }

  /** Every printed event can be framed: one line, nothing to trim, not empty and not the end marker. */
  lemma DataIsCarried(e: Event)
    requires Valid(e)
    ensures Carried(Data(e)) && Data(e) != [] && Data(e) != DONE
  {
    PayloadSpells(e);
    var j := Payload(Encoded(e));
    PrintNoNewline(j, []);
    PrintFieldsEnds(j.fields, []);
    var s := Data(e);
    assert s[0] == '{';
    assert EndsWith(PrintFields(j.fields, []), ['}']) by { assert ['}'] + [] == ['}']; }
    assert s[|s| - 1] == '}';
    AsciiEndsAreTrimmed(s);
  }

  lemma NameIsCarried(k: Bytes)
    requires Name(k)
    ensures Carried(k)
  {
    AsciiEndsAreTrimmed(k);
  }

  lemma NamesAreCarried(e: Event)
    ensures Carried(EventName(e))
  {
    PayloadNames();
    NameIsCarried(EventName(e));
  }

  // -------------------------------------------------------------------------- end to end

  /** The writes are exactly these events, in order, with keep-alive comments anywhere between them. */
  ghost predicate Carries(items: seq<Item>, events: seq<Event>) {
    if items == [] then events == []
    else if items[0].KeepAlive? then Carries(items[1..], events)
    else
      && events != [] && Valid(events[0])
      && items[0] == Framed(EventName(events[0]), Data(events[0]))
      && Carries(items[1..], events[1..])
  }

  lemma {:induction false} CarriedItems(items: seq<Item>, events: seq<Event>)
    requires Carries(items, events)
    ensures forall i :: 0 <= i < |items| ==> CarriedItem(items[i])
  {
    if items != [] {
      if items[0].KeepAlive? {
        CarriedItems(items[1..], events);
      } else {
        CarriedItems(items[1..], events[1..]);
        DataIsCarried(events[0]);
        NamesAreCarried(events[0]);
      }
    }
  }

  ghost predicate Frame(frame: (Bytes, Bytes), e: Event) {
    Valid(e) && frame == (EventName(e), Data(e))
  }

  lemma {:induction false} CarriedFrames(items: seq<Item>, events: seq<Event>)
    requires Carries(items, events)
    ensures |Frames(items)| == |events|
    ensures forall i :: 0 <= i < |events| ==> Frame(Frames(items)[i], events[i])
  {
    if items != [] {
      CarriedFrames(items[1..], if items[0].KeepAlive? then events else events[1..]);
      if !items[0].KeepAlive? {
        assert Frames(items) == [(EventName(events[0]), Data(events[0]))] + Frames(items[1..]);
      }
    }
  }

  lemma {:induction false} NoEarlyEnd(frames: seq<(Bytes, Bytes)>)
    requires forall i :: 0 <= i < |frames| ==> frames[i].1 != DONE
    ensures UpToDone(frames) == frames
  {
    if frames != [] {
      NoEarlyEnd(frames[1..]);
    }
  }

  /** A payload determines its event. */
  lemma PayloadDetermines(d: Event, e: Event)
    requires Payload(d) == Payload(e)
    ensures d == e
  {
    TypesDiffer();
    match d
    case MessageStart(_, _, x, y) =>
      if e.MessageStart? {
        DecimalInjective(x, e.inputTokens);
        DecimalInjective(y, e.outputTokens);
      }
    case MessageStartNoUsage(_, _) =>
    case MessageDelta(_, x) => if e.MessageDelta? { DecimalInjective(x, e.outputTokens); }
    case MessageStop =>
    case _ =>
      if !e.MessageStart? && !e.MessageStartNoUsage? && !e.MessageDelta? && !e.MessageStop? {
        DecimalInjective(d.index, e.index);
      }
  }

  lemma TypesDiffer()
    ensures "text" != "thinking" && "text" != "tool_use" && "thinking" != "tool_use"
    ensures "text_delta" != "thinking_delta" && "text_delta" != "input_json_delta" && "thinking_delta" != "input_json_delta"
  {
    EventNamesDiffer();
    assert "text"[1] != "thinking"[1] && "text"[1] != "tool_use"[1] && "thinking"[1] != "tool_use"[1];
    assert "text_delta"[1] != "thinking_delta"[1] && "text_delta"[0] != "input_json_delta"[0];
  }

  /** What the client reads off the wire: for every list of events and any keep-alives between them, the parser
      hands on one frame per event, in order, named after it, whose data unmarshals to that event's payload. */
  lemma StreamRoundTrips(items: seq<Item>, events: seq<Event>)
    requires Carries(items, events)
    ensures var out := Forward(Wire(items), [], []);
            && |out| == |events|
            && forall i :: 0 <= i < |events| ==>
                 out[i].0 == EventName(events[i]) && Unmarshal(out[i].1) == Some(Payload(events[i]))
  {
    CarriedItems(items, events);
    CarriedFrames(items, events);
    forall i | 0 <= i < |events| ensures Frames(items)[i].1 != DONE { DataIsCarried(events[i]); }
    NoEarlyEnd(Frames(items));
    ForwardWire(items);
    forall i | 0 <= i < |events| ensures Unmarshal(Frames(items)[i].1) == Some(Payload(events[i])) {
      DataUnmarshals(events[i]);
    }
  }
}
