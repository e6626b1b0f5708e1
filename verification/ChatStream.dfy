/**
 Reading an OpenAI chat stream as Anthropic frames: each data line becomes canonical frames, and the frames
 the OpenAI wire does not have are synthesized around them.
 */
module ChatStream {
  import opened Options
  import opened ChatFrames

  // ---- one chunk ------------------------------------------------------------------------------------

  datatype WireUsage = WireUsage(prompt: Option<int>, completion: Option<int>, cached: Option<int>)

  datatype Usage = Usage(input: Option<int>, output: Option<int>, cacheRead: Option<int>)

  datatype ToolCall = ToolCall(id: string, name: string, arguments: string, index: Option<int>)

  datatype Choice = Choice(index: int, content: Option<string>, toolCalls: seq<ToolCall>, finish: Option<string>)

  datatype Chunk = Chunk(choices: seq<Choice>, usage: Option<WireUsage>)

  /** A canonical frame with the usage that rides on it. */
  datatype Piece = Piece(frame: Frame, usage: Option<Usage>)

  function StopOf(finish: string): string {
    if finish == "stop" then "end_turn"
    else if finish == "length" then "max_tokens"
    else if finish == "tool_calls" then "tool_use"
    else "end_turn"
  }

  /** Cached prompt tokens are counted apart from the rest of the prompt. */
  function UsageOf(u: WireUsage): Usage {
    var cached := if u.cached.Some? then u.cached.value else 0;
    Usage(
      if u.prompt.None? then None else Some(if u.prompt.value - cached < 0 then 0 else u.prompt.value - cached),
      u.completion,
      if cached != 0 then Some(cached) else None)
  }

  /** The block index of a tool call: shifted past the choice's own text block. */
  function TargetOf(ch: Choice, tc: ToolCall): int {
    if tc.index.Some? then tc.index.value + 1 else ch.index + 1
  }

  function ToolFrames(ch: Choice, tc: ToolCall): seq<Piece> {
    (if tc.id != "" || tc.name != "" then [Piece(ToolOpen(TargetOf(ch, tc), tc.id, tc.name), None)] else [])
    + (if tc.arguments != "" then [Piece(JsonDelta(TargetOf(ch, tc), tc.arguments), None)] else [])
  }

  function AllToolFrames(ch: Choice, n: nat): seq<Piece>
    requires n <= |ch.toolCalls|
  {
    if n == 0 then [] else AllToolFrames(ch, n - 1) + ToolFrames(ch, ch.toolCalls[n - 1])
  }

  function TextFrames(ch: Choice): seq<Piece> {
    if ch.content.Some? && ch.content.value != "" then [Piece(TextDelta(ch.index, ch.content.value), None)] else []
  }

  function FinishFrames(ch: Choice): seq<Piece> {
    if ch.finish.Some? then [Piece(MessageDelta(Some(StopOf(ch.finish.value))), None)] else []
  }

  function ChoiceFrames(ch: Choice): seq<Piece> {
    TextFrames(ch) + AllToolFrames(ch, |ch.toolCalls|) + FinishFrames(ch)
  }

  /** The canonical frames of one chunk: only its first choice, and its usage on the first frame. */
  function Canonical(chunk: Chunk): seq<Piece> {
    var usage := if chunk.usage.Some? then Some(UsageOf(chunk.usage.value)) else None;
    var frames := if chunk.choices == [] then [] else ChoiceFrames(chunk.choices[0]);
    if frames != [] then [frames[0].(usage := usage)] + frames[1..]
    else if usage.Some? then [Piece(MessageDelta(None), usage)]
    else []
  }

  method ChunkToCanonical(chunk: Chunk) returns (out: seq<Piece>)
    ensures out == Canonical(chunk)
  {
    var usage: Option<Usage> := None;
    if chunk.usage.Some? {
      usage := Some(UsageOf(chunk.usage.value));
    }
    out := [];
    if |chunk.choices| > 0 {
      var ch := chunk.choices[0];
      if ch.content.Some? && ch.content.value != "" {
        out := out + [Piece(TextDelta(ch.index, ch.content.value), None)];
      }
      assert out == TextFrames(ch);
      assert out + [] == out;
      for n := 0 to |ch.toolCalls|
        invariant out == TextFrames(ch) + AllToolFrames(ch, n)
      {
        var tc := ch.toolCalls[n];
        var idx := ch.index + 1;
        if tc.index.Some? {
          idx := tc.index.value + 1;
        }
        if tc.id != "" || tc.name != "" {
          out := out + [Piece(ToolOpen(idx, tc.id, tc.name), None)];
        }
        if tc.arguments != "" {
          out := out + [Piece(JsonDelta(idx, tc.arguments), None)];
        }
        assert out == TextFrames(ch) + AllToolFrames(ch, n) + ToolFrames(ch, tc);
        assert out == TextFrames(ch) + (AllToolFrames(ch, n) + ToolFrames(ch, tc));
      }
      if ch.finish.Some? {
        out := out + [Piece(MessageDelta(Some(StopOf(ch.finish.value))), None)];
      }
      assert out == ChoiceFrames(ch);
      if |out| > 0 {
        return [out[0].(usage := usage)] + out[1..];
      }
    }
    if usage.Some? {
      return [Piece(MessageDelta(None), usage)];
    }
    return [];
  }

  /**
   The two canonical prompt counters are disjoint and add up to the prompt, unless the upstream reports more
   cached than prompt.
   */
  lemma {:induction false} UsageSplitsPrompt(u: WireUsage)
    requires u.prompt.Some?
    ensures var r := UsageOf(u); var cached := if u.cached.Some? then u.cached.value else 0;
            && r.output == u.completion && r.cacheRead == (if cached == 0 then None else Some(cached))
            && r.input.Some? && r.input.value >= 0
            && (r.input.value + (if r.cacheRead.Some? then r.cacheRead.value else 0) == u.prompt.value
                <==> cached <= u.prompt.value)
  {
  }

  // ---- the whole stream -----------------------------------------------------------------------------

  /** A line of the stream: a data line with its trimmed payload, or anything else. */
  datatype Line = Other | Data(payload: string)

  /** What is handed to the consumer: wire bytes to pass on, a canonical frame, or both. */
  datatype Event = Event(raw: Option<string>, frame: Option<Frame>, usage: Option<Usage>)

  datatype Track = Track(open: set<int>, started: bool, sawDelta: bool)

  datatype Out = Out(events: seq<Event>, track: Track)

  const IDLE: Track := Track({}, false, false)

  function Synthesized(f: Frame): Event {
    Event(None, Some(f), None)
  }

  function RawOnly(raw: string): Event {
    Event(Some(raw), None, None)
  }

  function RawOf(payload: string): string {
    "data: " + payload + "\n\n"
  }

  ghost function CloseEvents(open: seq<int>): seq<Event> {
    seq(|open|, k requires 0 <= k < |open| => Synthesized(BlockStop(open[k])))
  }

  /** What must be synthesized in front of a frame, once the message has started. */
  ghost function Before(open: set<int>, f: Frame): seq<Event> {
    match f
    case TextDelta(i, _) => if i in open then [] else [Synthesized(TextOpen(i))]
    case MessageDelta(_) => CloseEvents(Ascending(open))
    case _ => []
  }

  function OpenAfter(open: set<int>, f: Frame): set<int> {
    match f
    case TextDelta(i, _) => open + {i}
    case ToolOpen(i, _, _) => open + {i}
    case MessageDelta(_) => {}
    case _ => open
  }

  ghost function EmitPiece(model: string, t: Track, p: Piece, raw: Option<string>): Out {
    Out(
      (if t.started then [] else [Synthesized(MessageStart(model))]) + Before(t.open, p.frame)
        + [Event(raw, Some(p.frame), p.usage)],
      Track(OpenAfter(t.open, p.frame), true, t.sawDelta || p.frame.MessageDelta?))
  }

  /** The first n frames of a line; the wire bytes ride on the first. */
  ghost function EmitPieces(model: string, t: Track, pieces: seq<Piece>, raw: string, n: nat): Out
    requires n <= |pieces|
  {
    if n == 0 then Out([], t)
    else
      var before := EmitPieces(model, t, pieces, raw, n - 1);
      var next := EmitPiece(model, before.track, pieces[n - 1], if n == 1 then Some(raw) else None);
      Out(before.events + next.events, next.track)
  }

  /** The stop-bearing frame a message still lacks at the end. */
  function EndDelta(t: Track): seq<Event> {
    if t.started && !t.sawDelta then [Synthesized(MessageDelta(Some("end_turn")))] else []
  }

  function EndStop(t: Track): seq<Event> {
    if t.started then [Synthesized(MessageStop)] else []
  }

  ghost function EmitDone(t: Track): Out {
    Out(
      CloseEvents(Ascending(t.open)) + EndDelta(t) + EndStop(t) + [RawOnly(RawOf("[DONE]"))],
      t.(open := {}))
  }

  /** The frames of a payload; none when it does not parse. */
  function PiecesOf(parse: string -> Option<Chunk>, payload: string): seq<Piece> {
    var chunk := parse(payload);
    if chunk.None? then [] else Canonical(chunk.value)
  }

  ghost function EmitLine(parse: string -> Option<Chunk>, model: string, t: Track, line: Line): Out {
    if line.Other? || line.payload == "" then Out([], t)
    else if line.payload == "[DONE]" then EmitDone(t)
    else
      var pieces := PiecesOf(parse, line.payload);
      if pieces == [] then Out([RawOnly(RawOf(line.payload))], t)
      else EmitPieces(model, t, pieces, RawOf(line.payload), |pieces|)
  }

  ghost function Run(parse: string -> Option<Chunk>, model: string, lines: seq<Line>, n: nat): Out
    requires n <= |lines|
  {
    if n == 0 then Out([], IDLE)
    else
      var before := Run(parse, model, lines, n - 1);
      var next := EmitLine(parse, model, before.track, lines[n - 1]);
      Out(before.events + next.events, next.track)
  }

  // ---- frames of a run ------------------------------------------------------------------------------

  /** Everything f sees in a list. */
  function Collect<E, T>(f: E -> seq<T>, events: seq<E>): seq<T> {
    if events == [] then [] else Collect(f, events[..|events| - 1]) + f(events[|events| - 1])
  }

  lemma {:induction false} CollectConcat<E, T>(f: E -> seq<T>, a: seq<E>, b: seq<E>)
    ensures Collect(f, a + b) == Collect(f, a) + Collect(f, b)
  {
    if b == [] {
      assert a + b == a;
      assert Collect(f, a) + [] == Collect(f, a);
    } else {
      var n := |b| - 1;
      CollectConcat(f, a, b[..n]);
      assert (a + b)[..|a + b| - 1] == a + b[..n] && (a + b)[|a + b| - 1] == b[n];
      assert Collect(f, a) + (Collect(f, b[..n]) + f(b[n])) == Collect(f, a) + Collect(f, b[..n]) + f(b[n]);
    }
  }

  lemma {:induction false} CollectOne<E, T>(f: E -> seq<T>, e: E)
    ensures Collect(f, [e]) == f(e) && Collect(f, []) == []
  {
    assert [e][..0] == [];
    assert [] + f(e) == f(e);
  }

  lemma {:induction false} CollectNothing<E, T>(f: E -> seq<T>, es: seq<E>)
    requires forall k :: 0 <= k < |es| ==> f(es[k]) == []
    ensures Collect(f, es) == []
  {
    if es != [] {
      CollectNothing(f, es[..|es| - 1]);
    }
  }

  function FrameOf(e: Event): seq<Frame> {
    if e.frame.Some? then [e.frame.value] else []
  }

  function FramesOf(events: seq<Event>): seq<Frame> {
    Collect(FrameOf, events)
  }

  lemma {:induction false} FramesPush(events: seq<Event>, e: Event)
    ensures FramesOf(events + [e]) == FramesOf(events) + FrameOf(e)
  {
    CollectConcat(FrameOf, events, [e]);
    CollectOne(FrameOf, e);
  }

  // ---- the frame order holds over every run ---------------------------------------------------------

  /** The reader's three variables, read off the frames it has handed out. */
  ghost predicate Tracks(t: Track, events: seq<Event>) {
    var frames := FramesOf(events);
    && WellFormed(frames) && Opened(frames) == t.open
    && (t.started <==> frames != []) && (t.sawDelta ==> HasDelta(frames))
    && (!t.started ==> t.open == {})
  }

  lemma {:induction false} PushFrame(t: Track, events: seq<Event>, e: Event)
    requires Tracks(t, events) && (e.frame.Some? ==> Legal(FramesOf(events), e.frame.value))
    ensures Tracks(
              if e.frame.None? then t
              else Track(Reopened(t.open, e.frame.value), true, t.sawDelta || e.frame.value.MessageDelta?), events + [e])
    ensures e.frame.Some? ==> (ToolsInBlocks(FramesOf(events + [e]))
              <==> ToolsInBlocks(FramesOf(events)) && StrictlyLegal(FramesOf(events), e.frame.value))
    ensures e.frame.None? ==> FramesOf(events + [e]) == FramesOf(events)
  {
    hide WellFormed, HasDelta, ToolsInBlocks, FramesOf;
    FramesPush(events, e);
    if e.frame.Some? {
      ExtendFrames(FramesOf(events), e.frame.value);
    } else {
      assert FramesOf(events) + [] == FramesOf(events);
    }
  }

  /** Closing everything open, one stop at a time, adds nothing to what tool blocks must satisfy. */
  lemma {:induction false} PushStops(t: Track, events: seq<Event>, open: seq<int>, k: nat)
    requires Tracks(t, events) && t.started && k <= |open| && (forall x :: x in open <==> x in t.open)
    requires forall i, j :: 0 <= i < j < |open| ==> open[i] < open[j]
    ensures var now := events + CloseEvents(open[..k]);
            && Tracks(t.(open := set x | x in t.open && x !in open[..k]), now)
            && (ToolsInBlocks(FramesOf(now)) <==> ToolsInBlocks(FramesOf(events)))
  {
    hide FramesOf, ToolsInBlocks, WellFormed, Opened, HasDelta;
    if k == 0 {
      assert (set x | x in t.open && x !in open[..0]) == t.open;
      assert events + CloseEvents(open[..0]) == events;
    } else {
      PushStops(t, events, open, k - 1);
      var mid, e := events + CloseEvents(open[..k - 1]), Synthesized(BlockStop(open[k - 1]));
      var left := t.(open := set x | x in t.open && x !in open[..k - 1]);
      assert open[k - 1] in open;
      assert open[k - 1] !in open[..k - 1];
      PushFrame(left, mid, e);
      assert (set x | x in t.open && x !in open[..k]) == left.open - {open[k - 1]} by {
        assert open[..k] == open[..k - 1] + [open[k - 1]];
      }
      assert mid + [e] == events + CloseEvents(open[..k]);
    }
  }

  lemma {:induction false} PushClose(t: Track, events: seq<Event>)
    requires Tracks(t, events)
    ensures var now := events + CloseEvents(Ascending(t.open));
            && Tracks(t.(open := {}), now)
            && (ToolsInBlocks(FramesOf(now)) <==> ToolsInBlocks(FramesOf(events)))
  {
    hide FramesOf, ToolsInBlocks, WellFormed, Opened, HasDelta;
    var open := Ascending(t.open);
    if t.started {
      PushStops(t, events, open, |open|);
      assert open[..|open|] == open;
      assert (set x | x in t.open && x !in open) == {};
    } else {
      assert open == [];
      assert events + CloseEvents(open) == events;
      assert t.(open := {}) == t;
    }
  }

  lemma {:induction false} PushStart(model: string, t: Track, events: seq<Event>)
    requires Tracks(t, events)
    ensures var now := events + if t.started then [] else [Synthesized(MessageStart(model))];
            && Tracks(t.(started := true), now)
            && (ToolsInBlocks(FramesOf(now)) <==> ToolsInBlocks(FramesOf(events)))
  {
    if t.started {
      assert events + [] == events;
      assert t.(started := true) == t;
    } else {
      PushFrame(t, events, Synthesized(MessageStart(model)));
    }
  }

  /** What the frame itself must satisfy to be in its block. */
  predicate InBlock(open: set<int>, f: Frame) {
    match f
    case ToolOpen(i, _, _) => i !in open
    case JsonDelta(i, _) => i in open
    case _ => true
  }

  lemma {:induction false} PushBefore(t: Track, events: seq<Event>, f: Frame)
    requires Tracks(t, events) && t.started
    ensures var now := events + Before(t.open, f);
            var open := if f.TextDelta? then t.open + {f.index} else if f.MessageDelta? then {} else t.open;
            && Tracks(t.(open := open), now)
            && (ToolsInBlocks(FramesOf(now)) <==> ToolsInBlocks(FramesOf(events)))
  {
    hide FramesOf, ToolsInBlocks, WellFormed, HasDelta;
    if f.TextDelta? && f.index !in t.open {
      PushFrame(t, events, Synthesized(TextOpen(f.index)));
    } else if f.MessageDelta? {
      PushClose(t, events);
    } else {
      assert f.TextDelta? ==> t.open + {f.index} == t.open;
      assert events + [] == events;
    }
  }

  lemma {:induction false} PushPiece(model: string, t: Track, events: seq<Event>, p: Piece, raw: Option<string>)
    requires Tracks(t, events)
    requires (p.frame.TextDelta? || p.frame.JsonDelta? || p.frame.ToolOpen? || p.frame.MessageDelta?)
    ensures var out := EmitPiece(model, t, p, raw);
            && Tracks(out.track, events + out.events)
            && (ToolsInBlocks(FramesOf(events + out.events)) <==> ToolsInBlocks(FramesOf(events)) && InBlock(t.open, p.frame))
  {
    hide FramesOf, ToolsInBlocks, WellFormed, HasDelta, Before;
    var start := if t.started then [] else [Synthesized(MessageStart(model))];
    var e := Event(raw, Some(p.frame), p.usage);
    var t1 := t.(started := true);
    var mid := events + start;
    PushStart(model, t, events);
    PushBefore(t1, mid, p.frame);
    var now := mid + Before(t.open, p.frame);
    var open := if p.frame.TextDelta? then t.open + {p.frame.index} else if p.frame.MessageDelta? then {} else t.open;
    PushFrame(t1.(open := open), now, e);
    assert now + [e] == events + (start + Before(t.open, p.frame) + [e]);
    assert Reopened(open, p.frame) == OpenAfter(t.open, p.frame);
  }

  // ---- every canonical frame is a delta, a tool opener or a message_delta ---------------------------

  predicate FromUpstream(f: Frame) {
    f.TextDelta? || f.JsonDelta? || f.ToolOpen? || f.MessageDelta?
  }

  lemma {:induction false} ToolFramesKind(ch: Choice, n: nat)
    requires n <= |ch.toolCalls|
    ensures forall k :: 0 <= k < |AllToolFrames(ch, n)| ==> FromUpstream(AllToolFrames(ch, n)[k].frame)
  {
    if n > 0 {
      ToolFramesKind(ch, n - 1);
    }
  }

  lemma {:induction false} CanonicalKind(chunk: Chunk)
    ensures forall k :: 0 <= k < |Canonical(chunk)| ==> FromUpstream(Canonical(chunk)[k].frame)
  {
    hide AllToolFrames;
    if chunk.choices != [] {
      ToolFramesKind(chunk.choices[0], |chunk.choices[0].toolCalls|);
    }
  }

  // ---- upstream discipline --------------------------------------------------------------------------

  /** One upstream frame, or the end-of-stream marker. */
  datatype Item = Up(frame: Frame) | Done

  /** The indices at which upstream text or a tool opener has arrived since the last message-level frame. */
  function Live(items: seq<Item>): set<int> {
    if items == [] then {}
    else
      var before, it := Live(items[..|items| - 1]), items[|items| - 1];
      if it.Done? then {} else OpenAfter(before, it.frame)
  }

  /** Upstream opens no tool at a live index, and sends arguments only at live ones. */
  ghost predicate Tidy(items: seq<Item>) {
    forall k :: 0 <= k < |items| ==> items[k].Up? ==> InBlock(Live(items[..k]), items[k].frame)
  }

  function PieceItems(pieces: seq<Piece>, n: nat): seq<Item>
    requires n <= |pieces|
  {
    if n == 0 then [] else PieceItems(pieces, n - 1) + [Up(pieces[n - 1].frame)]
  }

  function LineItems(parse: string -> Option<Chunk>, line: Line): seq<Item> {
    if line.Other? || line.payload == "" then []
    else if line.payload == "[DONE]" then [Done]
    else
      var pieces := PiecesOf(parse, line.payload);
      PieceItems(pieces, |pieces|)
  }

  function Items(parse: string -> Option<Chunk>, lines: seq<Line>, n: nat): seq<Item>
    requires n <= |lines|
  {
    if n == 0 then [] else Items(parse, lines, n - 1) + LineItems(parse, lines[n - 1])
  }

  lemma {:induction false} PushItem(items: seq<Item>, it: Item)
    ensures Live(items + [it]) == if it.Done? then {} else OpenAfter(Live(items), it.frame)
    ensures Tidy(items + [it]) <==> Tidy(items) && (it.Up? ==> InBlock(Live(items), it.frame))
  {
    hide InBlock, OpenAfter;
    var more := items + [it];
    assert more[..|items|] == items && more[|items|] == it;
    assert forall k :: 0 <= k < |items| ==> more[..k] == items[..k] && more[k] == items[k];
  }

  /** The reader's state, the frames it handed out, and what upstream sent. */
  ghost predicate Follows(t: Track, events: seq<Event>, items: seq<Item>) {
    && Tracks(t, events) && Live(items) == t.open
    && (ToolsInBlocks(FramesOf(events)) <==> Tidy(items))
  }

  lemma {:induction false} FollowPieces(model: string, t: Track, events: seq<Event>, items: seq<Item>,
                                        pieces: seq<Piece>, raw: string, n: nat)
    requires Follows(t, events, items) && n <= |pieces| && forall k :: 0 <= k < |pieces| ==> FromUpstream(pieces[k].frame)
    ensures var out := EmitPieces(model, t, pieces, raw, n);
            Follows(out.track, events + out.events, items + PieceItems(pieces, n))
  {
    hide Tracks, ToolsInBlocks, FramesOf, Tidy, Live, InBlock, EmitPiece;
    if n == 0 {
      assert events + [] == events && items + [] == items;
    } else {
      FollowPieces(model, t, events, items, pieces, raw, n - 1);
      var before, p := EmitPieces(model, t, pieces, raw, n - 1), pieces[n - 1];
      var wire := if n == 1 then Some(raw) else None;
      var next := EmitPiece(model, before.track, p, wire);
      PushPiece(model, before.track, events + before.events, p, wire);
      PushItem(items + PieceItems(pieces, n - 1), Up(p.frame));
      TrackAfter(model, before.track, p, wire);
      assert events + before.events + next.events == events + (before.events + next.events);
      assert items + PieceItems(pieces, n - 1) + [Up(p.frame)] == items + PieceItems(pieces, n);
    }
  }

  lemma {:induction false} TrackAfter(model: string, t: Track, p: Piece, raw: Option<string>)
    ensures EmitPiece(model, t, p, raw).track.open == OpenAfter(t.open, p.frame)
  {
  }

  lemma {:induction false} PushEndDelta(t: Track, events: seq<Event>)
    requires Tracks(t, events) && t.open == {}
    ensures Tracks(t, events + EndDelta(t)) && (t.started ==> HasDelta(FramesOf(events + EndDelta(t))))
    ensures ToolsInBlocks(FramesOf(events + EndDelta(t))) <==> ToolsInBlocks(FramesOf(events))
  {
    hide ToolsInBlocks, FramesOf, WellFormed, HasDelta;
    if EndDelta(t) == [] {
      assert events + [] == events;
    } else {
      PushFrame(t, events, EndDelta(t)[0]);
    }
  }

  lemma {:induction false} PushEndStop(t: Track, events: seq<Event>)
    requires Tracks(t, events) && t.open == {} && (t.started ==> HasDelta(FramesOf(events)))
    ensures Tracks(t, events + EndStop(t))
    ensures ToolsInBlocks(FramesOf(events + EndStop(t))) <==> ToolsInBlocks(FramesOf(events))
  {
    hide ToolsInBlocks, FramesOf, WellFormed, HasDelta;
    if EndStop(t) == [] {
      assert events + [] == events;
    } else {
      PushFrame(t, events, EndStop(t)[0]);
    }
  }

  lemma {:induction false} FollowDone(t: Track, events: seq<Event>, items: seq<Item>)
    requires Follows(t, events, items)
    ensures Follows(EmitDone(t).track, events + EmitDone(t).events, items + [Done])
  {
    hide Tracks, ToolsInBlocks, FramesOf, Tidy, Live, CloseEvents, HasDelta, Ascending;
    var t1, close, raw := t.(open := {}), CloseEvents(Ascending(t.open)), RawOnly(RawOf("[DONE]"));
    PushClose(t, events);
    PushEndDelta(t1, events + close);
    PushEndStop(t1, events + close + EndDelta(t1));
    PushFrame(t1, events + close + EndDelta(t1) + EndStop(t1), raw);
    PushItem(items, Done);
    assert events + close + EndDelta(t1) + EndStop(t1) + [raw] == events + (close + EndDelta(t1) + EndStop(t1) + [raw]);
  }

  lemma {:induction false} FollowLine(parse: string -> Option<Chunk>, model: string, t: Track, events: seq<Event>,
                                      items: seq<Item>, line: Line)
    requires Follows(t, events, items)
    ensures var out := EmitLine(parse, model, t, line);
            Follows(out.track, events + out.events, items + LineItems(parse, line))
  {
    hide Tracks, ToolsInBlocks, FramesOf, Tidy, Live, EmitDone, EmitPieces, Canonical;
    if line.Other? || line.payload == "" {
      assert events + [] == events && items + [] == items;
    } else if line.payload == "[DONE]" {
      FollowDone(t, events, items);
    } else {
      var pieces, raw := PiecesOf(parse, line.payload), RawOf(line.payload);
      if pieces == [] {
        PushFrame(t, events, RawOnly(raw));
        assert items + [] == items;
      } else {
        CanonicalKind(parse(line.payload).value);
        FollowPieces(model, t, events, items, pieces, raw, |pieces|);
      }
    }
  }

  lemma {:induction false} RunFollows(parse: string -> Option<Chunk>, model: string, lines: seq<Line>, n: nat)
    requires n <= |lines|
    ensures var out := Run(parse, model, lines, n); Follows(out.track, out.events, Items(parse, lines, n))
  {
    hide Follows, EmitLine, LineItems;
    if n == 0 {
      NothingYet();
    } else {
      RunFollows(parse, model, lines, n - 1);
      var before := Run(parse, model, lines, n - 1);
      FollowLine(parse, model, before.track, before.events, Items(parse, lines, n - 1), lines[n - 1]);
    }
  }

  lemma {:induction false} NothingYet()
    ensures Follows(IDLE, [], [])
  {
  }

  /** Whatever the input lines, the frames handed out keep the frame order. */
  lemma {:induction false} StreamIsWellFormed(parse: string -> Option<Chunk>, model: string, lines: seq<Line>, n: nat)
    requires n <= |lines|
    ensures WellFormed(FramesOf(Run(parse, model, lines, n).events))
  {
    hide WellFormed, FramesOf, Run;
    RunFollows(parse, model, lines, n);
  }

  /** At the end marker, a message that has started is closed: its last frame is message_stop and no block is open. */
  lemma {:induction false} DoneEndsMessage(parse: string -> Option<Chunk>, model: string, lines: seq<Line>, n: nat)
    requires 0 < n <= |lines| && lines[n - 1] == Data("[DONE]")
    requires FramesOf(Run(parse, model, lines, n - 1).events) != []
    ensures var frames := FramesOf(Run(parse, model, lines, n).events);
            frames != [] && frames[|frames| - 1] == MessageStop && Opened(frames) == {}
  {
    hide WellFormed, FramesOf, CloseEvents, Opened, Tidy, Live, HasDelta, ToolsInBlocks, Ascending, EndDelta;
    RunFollows(parse, model, lines, n - 1);
    RunFollows(parse, model, lines, n);
    var before := Run(parse, model, lines, n - 1);
    var t, raw := before.track, RawOnly(RawOf("[DONE]"));
    var all := before.events + (CloseEvents(Ascending(t.open)) + EndDelta(t));
    FramesPush(all, Synthesized(MessageStop));
    FramesPush(all + [Synthesized(MessageStop)], raw);
    assert Run(parse, model, lines, n).events == all + [Synthesized(MessageStop)] + [raw];
  }

  /**
   Tool arguments stay inside an open block, and tool blocks are opened only where none is open, exactly when
   upstream is tidy; the reader does not repair an untidy upstream.
   */
  lemma {:induction false} ToolsInBlocksIffTidy(parse: string -> Option<Chunk>, model: string, lines: seq<Line>, n: nat)
    requires n <= |lines|
    ensures ToolsInBlocks(FramesOf(Run(parse, model, lines, n).events)) <==> Tidy(Items(parse, lines, n))
  {
    hide ToolsInBlocks, FramesOf, Run, Tidy, Items;
    RunFollows(parse, model, lines, n);
  }

  /** Argument fragments before any opener: a delta outside every block. */
  lemma {:induction false} StrayArguments(model: string, payload: string, parse: string -> Option<Chunk>)
    requires payload != "" && payload != "[DONE]"
    requires parse(payload) == Some(Chunk([Choice(0, None, [ToolCall("", "", "{}", Some(0))], None)], None))
    ensures !ToolsInBlocks(FramesOf(Run(parse, model, [Data(payload)], 1).events))
  {
    var lines := [Data(payload)];
    var ch := Choice(0, None, [ToolCall("", "", "{}", Some(0))], None);
    var piece := Piece(JsonDelta(1, "{}"), None);
    assert AllToolFrames(ch, 0) == [];
    assert AllToolFrames(ch, 1) == AllToolFrames(ch, 0) + ToolFrames(ch, ch.toolCalls[0]);
    assert ToolFrames(ch, ch.toolCalls[0]) == [piece];
    assert ChoiceFrames(ch) == [piece];
    var chunk := Chunk([ch], None);
    assert Canonical(chunk) == [piece];
    assert PieceItems([piece], 1) == PieceItems([piece], 0) + [Up(piece.frame)];
    assert LineItems(parse, lines[0]) == [Up(piece.frame)];
    assert Items(parse, lines, 0) == [];
    var items := Items(parse, lines, 1);
    assert items == [Up(piece.frame)];
    assert items[..0] == [] && !InBlock(Live(items[..0]), items[0].frame);
    ToolsInBlocksIffTidy(parse, model, lines, 1);
  }
}
