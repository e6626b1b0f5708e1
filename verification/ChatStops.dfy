/** Why a message stopped: the stop reasons of a stream against the finish reasons of the upstream chunks. */
module ChatStops {
  import opened Options
  import opened ChatFrames
  import opened ChatStream
  import opened ChatConserve
  import opened ChatTools

  const STOP_REASONS: map<string, string> := map["stop" := "end_turn", "length" := "max_tokens", "tool_calls" := "tool_use"]

  function StopReason(finish: string): string {
    if finish in STOP_REASONS then STOP_REASONS[finish] else "end_turn"
  }

  /** The chunk of a data line that is not the end marker, if it parses. */
  function ChunkOf(parse: string -> Option<Chunk>, line: Line): Option<Chunk> {
    if line.Other? || line.payload == "" || line.payload == "[DONE]" then None else parse(line.payload)
  }

  /** The chunk carries something: text, a tool call, a finish reason or usage. */
  predicate Carries(chunk: Chunk) {
    || chunk.usage.Some?
    || (chunk.choices != []
        && var ch := chunk.choices[0];
           ch.content !in {None, Some("")} || CallSignals(ch, |ch.toolCalls|) != [] || ch.finish.Some?)
  }

  /** A message has begun: some line carried something. */
  predicate Begun(parse: string -> Option<Chunk>, lines: seq<Line>, n: nat)
    requires n <= |lines|
  {
    exists k :: 0 <= k < n && ChunkOf(parse, lines[k]).Some? && Carries(ChunkOf(parse, lines[k]).value)
  }

  /** It has been told to end: some chunk ended it. */
  predicate Told(parse: string -> Option<Chunk>, lines: seq<Line>, n: nat)
    requires n <= |lines|
  {
    exists k :: 0 <= k < n && ChunkOf(parse, lines[k]).Some? && Ends in ChunkSignals(ChunkOf(parse, lines[k]).value)
  }

  /** The stop reasons a client must see: upstream's, and end_turn at an end marker if upstream never ended the message. */
  function DueStops(parse: string -> Option<Chunk>, lines: seq<Line>, n: nat): seq<string>
    requires n <= |lines|
  {
    if n == 0 then []
    else
      var ch := ChoiceOf(parse, lines[n - 1]);
      DueStops(parse, lines, n - 1)
      + if lines[n - 1] == Data("[DONE]")
        then if Begun(parse, lines, n - 1) && !Told(parse, lines, n - 1) then ["end_turn"] else []
        else if ch.Some? && ch.value.finish.Some? then [StopReason(ch.value.finish.value)] else []
  }

  // ---- what the stream says ---------------------------------------------------------------------------

  function StopIn(e: Event): seq<string> {
    if e.frame.Some? && e.frame.value.MessageDelta? && e.frame.value.stop.Some? then [e.frame.value.stop.value] else []
  }

  function StopPiece(p: Piece): seq<string> {
    if p.frame.MessageDelta? && p.frame.stop.Some? then [p.frame.stop.value] else []
  }

  lemma {:induction false} StopOfIs(finish: string)
    ensures StopOf(finish) == StopReason(finish)
  {
  }

  lemma {:induction false} ToolStops(ch: Choice, n: nat)
    requires n <= |ch.toolCalls|
    ensures Collect(StopPiece, AllToolFrames(ch, n)) == []
  {
    hide Collect;
    CollectOne(StopPiece, Piece(MessageStop, None));
    if n > 0 {
      ToolStops(ch, n - 1);
      CollectConcat(StopPiece, AllToolFrames(ch, n - 1), ToolFrames(ch, ch.toolCalls[n - 1]));
      CollectNothing(StopPiece, ToolFrames(ch, ch.toolCalls[n - 1]));
    }
  }

  lemma {:induction false} ChoiceStops(ch: Choice)
    ensures Collect(StopPiece, ChoiceFrames(ch)) == if ch.finish.Some? then [StopReason(ch.finish.value)] else []
  {
    hide Collect, AllToolFrames, StopOf;
    var g := StopPiece;
    var text, tools, finish := TextFrames(ch), AllToolFrames(ch, |ch.toolCalls|), FinishFrames(ch);
    CollectConcat(g, text + tools, finish);
    CollectConcat(g, text, tools);
    CollectNothing(g, text);
    ToolStops(ch, |ch.toolCalls|);
    CollectOne(g, Piece(MessageStop, None));
    if ch.finish.Some? {
      StopOfIs(ch.finish.value);
      CollectOne(g, finish[0]);
    }
  }

  lemma {:induction false} ChunkStops(chunk: Chunk)
    ensures Collect(StopPiece, Canonical(chunk))
            == if chunk.choices != [] && chunk.choices[0].finish.Some? then [StopReason(chunk.choices[0].finish.value)] else []
  {
    hide Collect, ChoiceFrames, UsageOf, StopReason;
    var g := StopPiece;
    var usage := if chunk.usage.Some? then Some(UsageOf(chunk.usage.value)) else None;
    CollectOne(g, Piece(MessageDelta(None), usage));
    if chunk.choices != [] {
      var frames := ChoiceFrames(chunk.choices[0]);
      ChoiceStops(chunk.choices[0]);
      if frames != [] {
        assert frames == [frames[0]] + frames[1..];
        CollectConcat(g, [frames[0]], frames[1..]);
        CollectConcat(g, [frames[0].(usage := usage)], frames[1..]);
        CollectOne(g, frames[0]);
        CollectOne(g, frames[0].(usage := usage));
      }
    }
  }

  /** The end marker supplies a stop reason to a message that has begun and was not told to end. */
  lemma {:induction false} DoneStops(t: Track)
    ensures Collect(StopIn, EmitDone(t).events) == if t.started && !t.sawDelta then ["end_turn"] else []
  {
    hide Collect;
    var f := StopIn;
    var close, delta, stop, raw := CloseEvents(Ascending(t.open)), EndDelta(t), EndStop(t), RawOnly(RawOf("[DONE]"));
    CollectConcat(f, close + delta + stop, [raw]);
    CollectConcat(f, close + delta, stop);
    CollectConcat(f, close, delta);
    CollectNothing(f, close);
    CollectNothing(f, stop);
    CollectOne(f, raw);
    if delta != [] {
      CollectOne(f, delta[0]);
    }
  }

  // ---- what the reader remembers ------------------------------------------------------------------------

  lemma {:induction false} PiecesTrack(model: string, t: Track, pieces: seq<Piece>, raw: string, n: nat)
    requires n <= |pieces|
    ensures var r := EmitPieces(model, t, pieces, raw, n).track;
            && (r.started <==> t.started || n > 0)
            && (r.sawDelta <==> t.sawDelta || exists k :: 0 <= k < n && pieces[k].frame.MessageDelta?)
  {
    hide EmitPiece;
    if n > 0 {
      PiecesTrack(model, t, pieces, raw, n - 1);
      PieceTrack(model, EmitPieces(model, t, pieces, raw, n - 1).track, pieces[n - 1], if n == 1 then Some(raw) else None);
    }
  }

  lemma {:induction false} PieceTrack(model: string, t: Track, p: Piece, raw: Option<string>)
    ensures var r := EmitPiece(model, t, p, raw).track;
            r.started && (r.sawDelta <==> t.sawDelta || p.frame.MessageDelta?)
  {
  }

  lemma {:induction false} DeltaIsSignal(pieces: seq<Piece>)
    ensures (exists k :: 0 <= k < |pieces| && pieces[k].frame.MessageDelta?) <==> Ends in Collect(PieceSignal, pieces)
  {
    if pieces != [] {
      var n := |pieces| - 1;
      DeltaIsSignal(pieces[..n]);
      assert forall k :: 0 <= k < n ==> pieces[..n][k] == pieces[k];
      assert pieces[n].frame.MessageDelta? <==> Ends in PieceSignal(pieces[n]);
    }
  }

  lemma {:induction false} CarriesIsSpeaking(chunk: Chunk)
    ensures Canonical(chunk) != [] <==> Carries(chunk)
  {
    hide ChoiceFrames, CallSignals, UsageOf;
    if chunk.choices != [] {
      ChoiceSignals(chunk.choices[0]);
    }
  }

  /** The reader knows whether a message has begun and whether it was told to end. */
  lemma {:induction false} RunRemembers(parse: string -> Option<Chunk>, model: string, lines: seq<Line>, n: nat)
    requires n <= |lines|
    ensures var t := Run(parse, model, lines, n).track;
            (t.started <==> Begun(parse, lines, n)) && (t.sawDelta <==> Told(parse, lines, n))
  {
    hide Carries, ChunkSignals, Canonical, EmitPieces, CloseEvents, Collect, Begun, Told;
    if n == 0 {
      NotBegun(parse, lines);
    } else {
      RunRemembers(parse, model, lines, n - 1);
      var t, line := Run(parse, model, lines, n - 1).track, lines[n - 1];
      var c := ChunkOf(parse, line);
      if c.Some? {
        var pieces := Canonical(c.value);
        CarriesIsSpeaking(c.value);
        ChunkSignalsAre(c.value);
        DeltaIsSignal(pieces);
        PiecesTrack(model, t, pieces, RawOf(line.payload), |pieces|);
      }
      BegunNext(parse, lines, n - 1);
    }
  }

  lemma {:induction false} NotBegun(parse: string -> Option<Chunk>, lines: seq<Line>)
    ensures !Begun(parse, lines, 0) && !Told(parse, lines, 0)
  {
  }

  lemma {:induction false} BegunNext(parse: string -> Option<Chunk>, lines: seq<Line>, n: nat)
    requires n < |lines|
    ensures var c := ChunkOf(parse, lines[n]);
            && (Begun(parse, lines, n + 1) <==> Begun(parse, lines, n) || (c.Some? && Carries(c.value)))
            && (Told(parse, lines, n + 1) <==> Told(parse, lines, n) || (c.Some? && Ends in ChunkSignals(c.value)))
  {
    hide Carries, ChunkSignals, ChunkOf;
  }

  /** The stop reasons of the stream are those due, in order. */
  lemma {:induction false} StopsAreDue(parse: string -> Option<Chunk>, model: string, lines: seq<Line>, n: nat)
    requires n <= |lines|
    ensures Collect(StopIn, Run(parse, model, lines, n).events) == DueStops(parse, lines, n)
  {
    hide Collect, EmitLine, Begun, Told, StopReason;
    CollectOne(StopIn, RawOnly(""));
    if n > 0 {
      StopsAreDue(parse, model, lines, n - 1);
      var before := Run(parse, model, lines, n - 1);
      RunRemembers(parse, model, lines, n - 1);
      CollectConcat(StopIn, before.events, EmitLine(parse, model, before.track, lines[n - 1]).events);
      LineStops(parse, model, before.track, lines[n - 1]);
    }
  }

  lemma {:induction false} LineStops(parse: string -> Option<Chunk>, model: string, t: Track, line: Line)
    ensures var ch := ChoiceOf(parse, line);
            Collect(StopIn, EmitLine(parse, model, t, line).events)
            == if line == Data("[DONE]") then if t.started && !t.sawDelta then ["end_turn"] else []
               else if ch.Some? && ch.value.finish.Some? then [StopReason(ch.value.finish.value)] else []
  {
    hide Collect, EmitDone, EmitPieces, OwnPieces, Canonical, StopReason;
    CollectOne(StopIn, RawOnly(""));
    DoneStops(t);
    if line.Data? && line.payload != "" && line.payload != "[DONE]" {
      var pieces := PiecesOf(parse, line.payload);
      CollectOne(StopIn, RawOnly(RawOf(line.payload)));
      CollectPieces(StopIn, model, t, pieces, RawOf(line.payload), |pieces|);
      OwnReads(StopIn, StopPiece, pieces, RawOf(line.payload), |pieces|);
      assert pieces[..|pieces|] == pieces;
      CollectOne(StopPiece, Piece(MessageStop, None));
      if parse(line.payload).Some? {
        ChunkStops(parse(line.payload).value);
      }
    }
  }

  // ---- who answers --------------------------------------------------------------------------------------

  /** Every message_start names this model. */
  ghost predicate Names(events: seq<Event>, model: string) {
    forall e :: e in events && e.frame.Some? && e.frame.value.MessageStart? ==> e.frame.value.model == model
  }

  lemma {:induction false} PieceNames(model: string, t: Track, p: Piece, raw: Option<string>)
    requires FromUpstream(p.frame)
    ensures Names(EmitPiece(model, t, p, raw).events, model)
  {
  }

  lemma {:induction false} PiecesName(model: string, t: Track, pieces: seq<Piece>, raw: string, n: nat)
    requires n <= |pieces| && forall k :: 0 <= k < |pieces| ==> FromUpstream(pieces[k].frame)
    ensures Names(EmitPieces(model, t, pieces, raw, n).events, model)
  {
    hide EmitPiece, FromUpstream;
    if n > 0 {
      PiecesName(model, t, pieces, raw, n - 1);
      PieceNames(model, EmitPieces(model, t, pieces, raw, n - 1).track, pieces[n - 1], if n == 1 then Some(raw) else None);
    }
  }

  lemma {:induction false} LineNames(parse: string -> Option<Chunk>, model: string, t: Track, line: Line)
    ensures Names(EmitLine(parse, model, t, line).events, model)
  {
    hide EmitPieces, Canonical, FromUpstream;
    if line.Data? && line.payload != "" && line.payload != "[DONE]" && parse(line.payload).Some? {
      var chunk := parse(line.payload).value;
      CanonicalKind(chunk);
      PiecesName(model, t, Canonical(chunk), RawOf(line.payload), |Canonical(chunk)|);
    }
  }

  lemma {:induction false} RunNames(parse: string -> Option<Chunk>, model: string, lines: seq<Line>, n: nat)
    requires n <= |lines|
    ensures Names(Run(parse, model, lines, n).events, model)
  {
    hide EmitLine;
    if n > 0 {
      RunNames(parse, model, lines, n - 1);
      LineNames(parse, model, Run(parse, model, lines, n - 1).track, lines[n - 1]);
    }
  }
}
