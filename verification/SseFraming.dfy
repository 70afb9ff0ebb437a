/** Server-sent-event framing: the frames the handler writes and the parser that reads them back. */
module SseFraming {
  import opened Bytes

  // ------------------------------------------------------------------------------- writing

  /** One write to the response: an event frame, a bare data frame, or a keep-alive comment. */
  datatype Item = Framed(event: Bytes, data: Bytes) | Bare(data: Bytes) | KeepAlive

  /** `writeSSEFrameBytes`, `writeOpenAIFrame` and `writeKeepAlive`, in front of what is written next. */
  function Write(i: Item, rest: Bytes): Bytes {
    match i
    case Framed(event, data) => "event: " + event + ['\n'] + ("data: " + data + ['\n'] + (['\n'] + rest))
    case Bare(data) => "data: " + data + ['\n'] + (['\n'] + rest)
    case KeepAlive => ": keep-alive" + ['\n'] + (['\n'] + rest)
  }

  function Wire(items: seq<Item>): Bytes {
    if items == [] then [] else Write(items[0], Wire(items[1..]))
  }

  // ------------------------------------------------------------------------------- reading

  function TrimLineEnd(s: Bytes): (r: Bytes)
    ensures |r| <= |s|
  {
    if s != [] && (s[|s| - 1] == '\n' || s[|s| - 1] == '\r') then TrimLineEnd(s[..|s| - 1]) else s
  }

  /** Length of the first line with its line feed, or of the last, unterminated one. */
  function LineSize(s: Bytes): (n: nat)
    requires s != []
    ensures 1 <= n <= |s|
  {
    if s[0] == '\n' || |s| == 1 then 1 else 1 + LineSize(s[1..])
  }

  /** `readSSEline`: the next logical line. */
  function Line(s: Bytes): Bytes
    requires s != []
  {
    TrimLineEnd(s[..LineSize(s)])
  }

  const EVENT: Bytes := "event:"
  const DATA: Bytes := "data:"
  const DONE: Bytes := "[DONE]"

  /** The event and data builders after a line that is not blank. */
  function Absorb(line: Bytes, event: Bytes, data: Bytes): (Bytes, Bytes) {
    if EVENT <= line then (TrimSpace(line[|EVENT|..]), data)
    else if DATA <= line then
      var v := TrimSpace(line[|DATA|..]);
      (event, if data == [] then v else data + ['\n'] + v)
    else (event, data)
  }

  /** The events `forwardSSE` hands on, from the state of its two builders. */
  function Forward(s: Bytes, event: Bytes, data: Bytes): seq<(Bytes, Bytes)>
    decreases |s|
  {
    if s == [] then (if data == [] then [] else [(event, data)])
    else
      var line, rest := Line(s), s[LineSize(s)..];
      if line == [] then
        if data == [] then Forward(rest, [], [])
        else if data == DONE then [(event, data)]
        else [(event, data)] + Forward(rest, [], [])
      else
        var (event', data') := Absorb(line, event, data);
        Forward(rest, event', data')
  }

  /** `forwardSSE`: the loop over lines with its builders. */
  method ForwardSSE(input: Bytes) returns (written: seq<(Bytes, Bytes)>)
    ensures written == Forward(input, [], [])
  {
    written := [];
    var s, event, data := input, [], [];
    while s != []
      invariant Forward(input, [], []) == written + Forward(s, event, data)
      decreases |s|
    {
      ghost var was, after := written, Forward(s, event, data);
      var line := Line(s);
      s := s[LineSize(s)..];
      if line == [] {
        if data != [] {
          written := written + [(event, data)];
          if data == DONE {
            return;
          }
          assert after == [(event, data)] + Forward(s, [], []);
          assert was + after == written + Forward(s, [], []);
        }
        event, data := [], [];
      } else {
        ghost var builders := Absorb(line, event, data);
        if EVENT <= line {
          event := TrimSpace(line[|EVENT|..]);
        } else if DATA <= line {
          var v := TrimSpace(line[|DATA|..]);
          if data != [] {
            data := data + ['\n'];
          }
          assert [] + v == v;
          data := data + v;
        }
        assert builders == (event, data);
      }
    }
    if data != [] {
      written := written + [(event, data)];
    }
  }

  // ---------------------------------------------------------------------------- round trip

  predicate NoNewline(s: Bytes) { forall i :: 0 <= i < |s| ==> s[i] != '\n' }

  /** Text a frame carries unharmed. */
  predicate Carried(s: Bytes) { NoNewline(s) && Trimmed(s) }

  predicate CarriedItem(i: Item) {
    match i
    case Framed(event, data) => Carried(event) && Carried(data) && data != []
    case Bare(data) => Carried(data) && data != []
    case KeepAlive => true
  }

  /** The event and data of the frames, without the comments. */
  function Frames(items: seq<Item>): seq<(Bytes, Bytes)> {
    if items == [] then []
    else
      match items[0]
      case Framed(event, data) => [(event, data)] + Frames(items[1..])
      case Bare(data) => [([], data)] + Frames(items[1..])
      case KeepAlive => Frames(items[1..])
  }

  /** Up to and including the first `[DONE]`. */
  function UpToDone(frames: seq<(Bytes, Bytes)>): seq<(Bytes, Bytes)> {
    if frames == [] then []
    else if frames[0].1 == DONE then [frames[0]]
    else [frames[0]] + UpToDone(frames[1..])
  }

  lemma {:induction false} LineSizeIs(l: Bytes, rest: Bytes)
    requires NoNewline(l)
    ensures LineSize(l + ['\n'] + rest) == |l| + 1
  {
    var s := l + ['\n'] + rest;
    if l != [] {
      LineSizeIs(l[1..], rest);
      assert s[1..] == l[1..] + ['\n'] + rest;
    }
  }

  lemma TrimsLineFeed(l: Bytes)
    requires l == [] || (l[|l| - 1] != '\r' && l[|l| - 1] != '\n')
    ensures TrimLineEnd(l + ['\n']) == l
  {
    var t := l + ['\n'];
    assert t[..|t| - 1] == l;
    assert TrimLineEnd(t) == TrimLineEnd(l);
  }

  /** A written line is read back. */
  lemma ReadLine(l: Bytes, rest: Bytes)
    requires NoNewline(l) && (l == [] || l[|l| - 1] != '\r')
    ensures var s := l + ['\n'] + rest;
            Line(s) == l && s[LineSize(s)..] == rest
  {
    var s := l + ['\n'] + rest;
    LineSizeIs(l, rest);
    assert s[..|l| + 1] == l + ['\n'];
    TrimsLineFeed(l);
  }

  /** The value after a field name and one space is read back. */
  lemma ReadValue(x: Bytes)
    requires Trimmed(x)
    ensures TrimSpace([' '] + x) == x
  {
    var s := [' '] + x;
    assert SpaceSize(s) == 1 && s[1..] == x;
    assert TrimLeft(s) == TrimLeft(x) == x;
  }

  lemma LastByte(prefix: Bytes, x: Bytes)
    requires Carried(x) && prefix != [] && prefix[|prefix| - 1] == ' ' && NoNewline(prefix)
    ensures NoNewline(prefix + x) && (prefix + x)[|prefix + x| - 1] != '\r'
  {
    if x != [] {
      assert x[|x| - 1..][0] == x[|x| - 1];
      assert (prefix + x)[|prefix + x| - 1] == x[|x| - 1];
    }
  }

  lemma DataHead(data: Bytes)
    ensures var l := "data: " + data; DATA <= l && !(EVENT <= l) && l[|DATA|..] == [' '] + data
  {
    var l := "data: " + data;
    assert l[0] == 'd' && EVENT[0] == 'e';
    assert l[..5] == DATA;
  }

  lemma EventHead(event: Bytes)
    ensures var l := "event: " + event; EVENT <= l && l[|EVENT|..] == [' '] + event
  {
    assert ("event: " + event)[..6] == EVENT;
  }

  lemma AbsorbData(data: Bytes, event: Bytes)
    requires Carried(data)
    ensures Absorb("data: " + data, event, []) == (event, data)
  {
    DataHead(data);
    ReadValue(data);
  }

  lemma AbsorbEvent(event: Bytes)
    requires Carried(event)
    ensures Absorb("event: " + event, [], []) == (event, [])
  {
    EventHead(event);
    ReadValue(event);
  }

  /** A data line and the blank line after it hand on the event. */
  lemma ForwardData(event: Bytes, data: Bytes, rest: Bytes)
    requires Carried(data) && data != []
    ensures Forward("data: " + data + ['\n'] + (['\n'] + rest), event, []) ==
            [(event, data)] + (if data == DONE then [] else Forward(rest, [], []))
  {
    var l := "data: " + data;
    LastByte("data: ", data);
    AbsorbData(data, event);
    ReadLine(l, ['\n'] + rest);
    ReadLine([], rest);
    assert [] + ['\n'] + rest == ['\n'] + rest;
    assert Forward(['\n'] + rest, event, data) == [(event, data)] + (if data == DONE then [] else Forward(rest, [], []));
  }

  lemma ForwardItem(i: Item, rest: Bytes)
    requires CarriedItem(i)
    ensures Forward(Write(i, rest), [], []) ==
            match i
            case Framed(event, data) => [(event, data)] + (if data == DONE then [] else Forward(rest, [], []))
            case Bare(data) => [([], data)] + (if data == DONE then [] else Forward(rest, [], []))
            case KeepAlive => Forward(rest, [], [])
  {
    match i
    case Framed(event, data) =>
      var tail := "data: " + data + ['\n'] + (['\n'] + rest);
      LastByte("event: ", event);
      AbsorbEvent(event);
      ReadLine("event: " + event, tail);
      ForwardData(event, data, rest);
    case Bare(data) => ForwardData([], data, rest);
    case KeepAlive =>
      ReadLine(": keep-alive", ['\n'] + rest);
      ReadLine([], rest);
      assert [] + ['\n'] + rest == ['\n'] + rest;
      assert ": keep-alive"[0] != EVENT[0] && ": keep-alive"[0] != DATA[0];
      assert Forward(['\n'] + rest, [], []) == Forward(rest, [], []);
  }

  /** Parsing what was written gives the frames back, up to and including `[DONE]`,
      wherever keep-alive comments were inserted. */
  lemma {:induction false} ForwardWire(items: seq<Item>)
    requires forall i :: 0 <= i < |items| ==> CarriedItem(items[i])
    ensures Forward(Wire(items), [], []) == UpToDone(Frames(items))
  {
    if items != [] {
      ForwardWire(items[1..]);
      ForwardItem(items[0], Wire(items[1..]));
      var frames := Frames(items);
      if !items[0].KeepAlive? { assert frames[1..] == Frames(items[1..]); }
    }
  }
}
