/** openai_compat.go: replacing the message ids of a chunk line by the chat id. */
module ChunkRewriter {
  import opened Bytes

  const MARKER: Bytes := "\"id\":\"msg_"

  /** Bytes of the marker before the id itself: `"id":"`. */
  const HEAD: Bytes := "\"id\":\""

  /** Position of the first quote, or -1. */
  function QuoteIndex(s: Bytes): (i: int)
    ensures -1 <= i < |s|
    ensures i >= 0 ==> s[i] == '\"' && forall j :: 0 <= j < i ==> s[j] != '\"'
    ensures i < 0 ==> forall j :: 0 <= j < |s| ==> s[j] != '\"'
  {
    if s == [] then -1
    else if s[0] == '\"' then 0
    else
      var r := QuoteIndex(s[1..]);
      if r < 0 then -1 else r + 1
  }

  /** Where the first marked id ends: the position of its closing quote. */
  function ValueEnd(s: Bytes): (e: int)
    ensures e >= 0 ==> Index(s, MARKER) >= 0 && Index(s, MARKER) + |HEAD| <= e < |s| && s[e] == '\"'
  {
    var i := Index(s, MARKER);
    if i < 0 then -1
    else
      var q := QuoteIndex(s[i + |HEAD|..]);
      if q < 0 then -1 else i + |HEAD| + q
  }

  /** One pass from left to right. The closing quote of a replaced id is still to be read:
      it may open the next marker. */
  function Rewritten(s: Bytes, chat: Bytes): Bytes
    decreases |s|
  {
    var e := ValueEnd(s);
    if e < 0 then s else s[..Index(s, MARKER)] + (HEAD + (chat + Rewritten(s[e..], chat)))
  }

  // ----------------------------------------------------------------------- where markers are

  predicate MarkerAt(s: Bytes, j: int) {
    && 0 <= j && j + 10 <= |s|
    && s[j] == '\"' && s[j + 1] == 'i' && s[j + 2] == 'd' && s[j + 3] == '\"' && s[j + 4] == ':' && s[j + 5] == '\"'
    && s[j + 6] == 'm' && s[j + 7] == 's' && s[j + 8] == 'g' && s[j + 9] == '_'
  }

  predicate NoMarkerBefore(s: Bytes, n: nat) {
    forall j :: 0 <= j < n ==> !MarkerAt(s, j)
  }

  lemma MarkerBytes(s: Bytes, j: int)
    ensures OccursAt(s, MARKER, j) <==> MarkerAt(s, j)
  {
    if 0 <= j && j + 10 <= |s| {
      var t := s[j..];
      assert forall k :: 0 <= k < 10 ==> s[j + k] == t[k];
      assert MARKER <= t <==> t[..10] == MARKER;
    }
  }

  /** The search skips a part in which no marker starts. */
  lemma SearchSkips(s: Bytes, n: nat)
    requires n <= |s| && NoMarkerBefore(s, n)
    ensures Index(s, MARKER) == if Index(s[n..], MARKER) < 0 then -1 else n + Index(s[n..], MARKER)
  {
    var a, b := Index(s, MARKER), Index(s[n..], MARKER);
    IndexIsFirst(s, MARKER);
    IndexIsFirst(s[n..], MARKER);
    forall j ensures OccursAt(s[n..], MARKER, j) <==> j >= 0 && OccursAt(s, MARKER, n + j) {
      if 0 <= j <= |s| - n { assert s[n..][j..] == s[n + j..]; }
    }
    if a >= 0 {
      MarkerBytes(s, a);
      assert a >= n && OccursAt(s[n..], MARKER, a - n);
    }
    if b >= 0 { assert OccursAt(s, MARKER, n + b); }
  }

  /** Replacing an id neither leaves a marker in the text before its closing quote nor completes one there. */
  lemma ReplacementIsClean(x: Bytes, was: Bytes, chat: Bytes, tail: Bytes)
    requires chat != [] && chat[0] == 'c' && QuoteIndex(chat) < 0
    requires NoMarkerBefore(x + was, |x|) && |was| >= 10 && MarkerAt(was, 0)
    ensures NoMarkerBefore(x + HEAD + chat + tail, |x + HEAD + chat|)
  {
    var s := x + HEAD + chat + tail;
    var n := |x|;
    assert forall k :: 0 <= k < n ==> s[k] == (x + was)[k];
    assert forall k :: 0 <= k < 6 ==> s[n + k] == HEAD[k] == (x + was)[n + k];
    assert s[n + 6] == chat[0];
    forall j | 0 <= j < n + 6 + |chat| ensures !MarkerAt(s, j) {
      if j + 10 <= n + 6 {
        assert !MarkerAt(x + was, j);
      } else if j >= n + 6 {
        assert s[j] == chat[j - n - 6];
      }
    }
  }

  lemma StepIsClean(s: Bytes, idx: nat, chat: Bytes, tail: Bytes)
    requires chat != [] && chat[0] == 'c' && QuoteIndex(chat) < 0
    requires idx == Index(s, MARKER)
    ensures NoMarkerBefore(s[..idx] + HEAD + chat + tail, |s[..idx] + HEAD + chat|)
  {
    IndexIsFirst(s, MARKER);
    assert s[..idx] + s[idx..] == s;
    forall j | 0 <= j < idx ensures !MarkerAt(s, j) { MarkerBytes(s, j); }
    MarkerBytes(s, idx);
    assert forall k :: 0 <= k < 10 ==> s[idx..][k] == s[idx + k];
    ReplacementIsClean(s[..idx], s[idx..], chat, tail);
  }

  // --------------------------------------------------------------------------- the rewriter

  /** The loop's state: `done` holds no marker start, and `tail` is still to be rewritten. */
  ghost predicate Pending(done: Bytes, tail: Bytes, goal: Bytes, chat: Bytes) {
    NoMarkerBefore(done + tail, |done|) && goal == done + Rewritten(tail, chat)
  }

  lemma ValueEndSkips(done: Bytes, tail: Bytes)
    requires NoMarkerBefore(done + tail, |done|)
    ensures var i, e := Index(tail, MARKER), ValueEnd(tail);
            && Index(done + tail, MARKER) == (if i < 0 then -1 else |done| + i)
            && ValueEnd(done + tail) == (if e < 0 then -1 else |done| + e)
  {
    var out := done + tail;
    assert out[|done|..] == tail;
    SearchSkips(out, |done|);
    var i := Index(tail, MARKER);
    if i >= 0 { assert tail[i + |HEAD|..] == out[|done| + i + |HEAD|..]; }
  }

  lemma Regroup(a: Bytes, b: Bytes, c: Bytes, d: Bytes, e: Bytes)
    ensures a + (b + (c + (d + e))) == (a + b) + c + d + e
  {
  }

  /** One replacement: the text up to the id's closing quote joins `done`. */
  lemma Replaced(done: Bytes, tail: Bytes, goal: Bytes, chat: Bytes)
    requires chat != [] && chat[0] == 'c' && QuoteIndex(chat) < 0
    requires Pending(done, tail, goal, chat) && ValueEnd(tail) >= 0
    ensures Pending(done + tail[..Index(tail, MARKER)] + HEAD + chat, tail[ValueEnd(tail)..], goal, chat)
  {
    var i, e := Index(tail, MARKER), ValueEnd(tail);
    StaysClean(done, tail, i, chat, tail[e..]);
    Regroup(done, tail[..i], HEAD, chat, Rewritten(tail[e..], chat));
  }

  lemma StaysClean(done: Bytes, tail: Bytes, i: nat, chat: Bytes, rest: Bytes)
    requires chat != [] && chat[0] == 'c' && QuoteIndex(chat) < 0
    requires NoMarkerBefore(done + tail, |done|) && i == Index(tail, MARKER) && i <= |tail|
    ensures NoMarkerBefore(done + tail[..i] + HEAD + chat + rest, |done + tail[..i] + HEAD + chat|)
  {
    ValueEndSkips(done, tail);
    StepIsClean(done + tail, |done| + i, chat, rest);
    assert (done + tail)[..|done| + i] == done + tail[..i];
  }

  class ChunkRewriter {
    const chatID: Bytes

    /** `NewChunkRewriter`, from the random bytes it draws, in hexadecimal. */
    constructor (id: Bytes)
      requires QuoteIndex(id) < 0
      ensures chatID == "chatcmpl-" + id && Valid()
    {
      chatID := "chatcmpl-" + id;
      new;
      assert forall j :: 0 <= j < |chatID| ==> chatID[j] != '\"';
    }

    predicate Valid() { chatID != [] && chatID[0] == 'c' && QuoteIndex(chatID) < 0 }

    /** `RewriteLine`. */
    method RewriteLine(raw: Bytes) returns (out: Bytes)
      requires Valid()
      ensures out == Rewritten(raw, chatID)
    {
      if |raw| == 0 || Index(raw, MARKER) < 0 { return raw; }
      out := ReplaceIds(raw);
    }

    /** Its loop: it searches from the start after every replacement, yet ends and equals the single pass. */
    method ReplaceIds(raw: Bytes) returns (out: Bytes)
      requires Valid()
      ensures out == Rewritten(raw, chatID)
    {
      out := raw;
      ghost var goal := Rewritten(raw, chatID);
      ghost var done: Bytes, tail := [], raw;
      while true
        invariant out == done + tail
        invariant Pending(done, tail, goal, chatID)
        decreases |tail|
      {
        ValueEndSkips(done, tail);
        var idx := Index(out, MARKER);
        if idx < 0 {
          break;
        }
        var valStart := idx + |HEAD|;
        var q := QuoteIndex(out[valStart..]);
        if q < 0 {
          break;
        }
        var valEnd := valStart + q;
        Replaced(done, tail, goal, chatID);
        Cut(done, tail, idx, valEnd, HEAD, chatID);
        done, tail := done + tail[..idx - |done|] + HEAD + chatID, tail[valEnd - |done|..];
        out := out[..idx] + (HEAD + chatID + "\"") + out[valEnd + 1..];
      }
    }
  }

  /** The spliced buffer, seen as the new read and unread parts. */
  lemma Cut(done: Bytes, tail: Bytes, idx: nat, valEnd: nat, head: Bytes, chat: Bytes)
    requires |done| <= idx <= valEnd < |done + tail| && (done + tail)[valEnd] == '\"'
    ensures var out := done + tail;
            out[..idx] + (head + chat + "\"") + out[valEnd + 1..] ==
            (done + tail[..idx - |done|] + head + chat) + tail[valEnd - |done|..]
  {
    var out := done + tail;
    assert out[..idx] == done + tail[..idx - |done|];
    assert tail[valEnd - |done|..] == ['\"'] + out[valEnd + 1..];
  }

  // ------------------------------------------------------------------------- what it achieves

  /** `texts[0]` `"id":"` `values[0]` `texts[1]` … : the texts between the values, in order. */
  function Weave(texts: seq<Bytes>, values: seq<Bytes>): Bytes
    requires |texts| == |values| + 1
  {
    if values == [] then texts[0] else texts[0] + (HEAD + (values[0] + Weave(texts[1..], values[1..])))
  }

  /** The texts around the marked ids of a line, and the ids. */
  function Split(s: Bytes): (r: (seq<Bytes>, seq<Bytes>))
    ensures |r.0| == |r.1| + 1
    decreases |s|
  {
    var e := ValueEnd(s);
    if e < 0 then ([s], [])
    else
      var i := Index(s, MARKER);
      var (texts, values) := Split(s[e..]);
      ([s[..i]] + texts, [s[i + |HEAD|..e]] + values)
  }

  lemma FourParts(s: Bytes, i: nat, h: nat, e: nat)
    requires i <= h <= e <= |s|
    ensures s == s[..i] + (s[i..h] + (s[h..e] + s[e..]))
  {
  }

  lemma HeadAt(s: Bytes, i: int)
    requires MarkerAt(s, i)
    ensures s[i..i + |HEAD|] == HEAD
  {
  }

  /** The id is what comes before the first quote after the head, and it starts with `msg_`. */
  lemma MessageIdAt(w: Bytes, q: int)
    requires |w| >= 4 && w[0] == 'm' && w[1] == 's' && w[2] == 'g' && w[3] == '_' && q == QuoteIndex(w) && q >= 0
    ensures "msg_" <= w[..q] && QuoteIndex(w[..q]) < 0
  {
    assert q >= 4;
    assert w[..q][..4] == "msg_";
  }

  /** A marked id and its closing quote, with the text on both sides. */
  lemma IdAt(s: Bytes, i: nat, e: nat)
    requires MarkerAt(s, i) && i + |HEAD| <= e < |s| && QuoteIndex(s[i + |HEAD|..]) == e - i - |HEAD|
    ensures var v := s[i + |HEAD|..e];
            s == s[..i] + (HEAD + (v + s[e..])) && "msg_" <= v && QuoteIndex(v) < 0
  {
    HeadAt(s, i);
    FourParts(s, i, i + |HEAD|, e);
    var w := s[i + |HEAD|..];
    MessageIdAt(w, e - i - |HEAD|);
    assert s[i + |HEAD|..e] == w[..e - i - |HEAD|];
  }

  /** The first marked id of a line. */
  lemma FirstId(s: Bytes)
    requires ValueEnd(s) >= 0
    ensures var i, e := Index(s, MARKER), ValueEnd(s);
            var v := s[i + |HEAD|..e];
            s == s[..i] + (HEAD + (v + s[e..])) && "msg_" <= v && QuoteIndex(v) < 0
  {
    var i := Index(s, MARKER);
    IndexIsFirst(s, MARKER);
    MarkerBytes(s, i);
    IdAt(s, i, ValueEnd(s));
  }

  function Repeat(chat: Bytes, n: nat): (r: seq<Bytes>)
    ensures |r| == n
  {
    if n == 0 then [] else [chat] + Repeat(chat, n - 1)
  }

  /** The line is its texts and ids woven together, and every id is a message id... */
  lemma {:induction false} SplitWeaves(s: Bytes)
    ensures var (texts, values) := Split(s);
            s == Weave(texts, values) && forall v :: v in values ==> "msg_" <= v && QuoteIndex(v) < 0
    decreases |s|
  {
    var e := ValueEnd(s);
    var (texts, values) := Split(s);
    if e >= 0 {
      FirstId(s);
      SplitWeaves(s[e..]);
      assert texts[1..] == Split(s[e..]).0 && values[1..] == Split(s[e..]).1;
    }
  }

  /** ... and the result is the same texts with every id replaced: nothing else changes. */
  lemma {:induction false} OnlyIdsChange(s: Bytes, chat: Bytes)
    ensures var (texts, values) := Split(s);
            Rewritten(s, chat) == Weave(texts, Repeat(chat, |values|))
    decreases |s|
  {
    var e := ValueEnd(s);
    var (texts, values) := Split(s);
    if e >= 0 {
      OnlyIdsChange(s[e..], chat);
      assert texts[1..] == Split(s[e..]).0;
      assert Repeat(chat, |values|)[1..] == Repeat(chat, |values| - 1);
    }
  }

  /** No terminated message id is left, so rewriting again changes nothing. */
  lemma {:induction false} NothingLeft(s: Bytes, chat: Bytes)
    requires chat != [] && chat[0] == 'c' && QuoteIndex(chat) < 0
    ensures ValueEnd(Rewritten(s, chat)) < 0
    ensures Rewritten(Rewritten(s, chat), chat) == Rewritten(s, chat)
    decreases |s|
  {
    var e := ValueEnd(s);
    if e >= 0 {
      var i := Index(s, MARKER);
      var rest := Rewritten(s[e..], chat);
      NothingLeft(s[e..], chat);
      StepIsClean(s, i, chat, rest);
      ValueEndSkips(s[..i] + HEAD + chat, rest);
      Regroup([], s[..i], HEAD, chat, rest);
      assert [] + s[..i] == s[..i] && [] + (s[..i] + (HEAD + (chat + rest))) == s[..i] + (HEAD + (chat + rest));
    }
  }
}
