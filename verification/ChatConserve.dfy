/** Nothing is lost or invented: text, tool arguments, usage and wire bytes over a whole stream. */
module ChatConserve {
  import opened Options
  import opened ChatFrames
  import opened ChatStream

  // ---- what the frames say --------------------------------------------------------------------------

  function TextIn(e: Event): string {
    if e.frame.Some? && e.frame.value.TextDelta? then e.frame.value.text else ""
  }

  function ArgumentsIn(i: int): Event -> string {
    (e: Event) => if e.frame.Some? && e.frame.value.JsonDelta? && e.frame.value.index == i then e.frame.value.partial else ""
  }

  function RawIn(e: Event): seq<string> {
    if e.raw.Some? then [e.raw.value] else []
  }

  function UsageIn(e: Event): seq<Usage> {
    if e.usage.Some? then [e.usage.value] else []
  }

  /** An event of the reader's own making. */
  predicate MadeUp(e: Event) {
    && e.raw.None? && e.usage.None? && e.frame.Some?
    && !e.frame.value.TextDelta? && !e.frame.value.JsonDelta? && !e.frame.value.ToolOpen?
  }

  /** f sees nothing in the events the reader makes up. */
  ghost predicate Quiet<T(!new)>(f: Event -> seq<T>) {
    forall e :: MadeUp(e) ==> f(e) == []
  }

  /** The same, leaving aside the message_delta a message may lack at its end. */
  ghost predicate QuietAround<T(!new)>(f: Event -> seq<T>) {
    forall e :: MadeUp(e) && !e.frame.value.MessageDelta? ==> f(e) == []
  }

  // ---- made-up frames carry nothing -----------------------------------------------------------------

  /** A line's own events: one for each of its frames, the first with the wire bytes. */
  function OwnPieces(pieces: seq<Piece>, raw: string, n: nat): seq<Event>
    requires n <= |pieces|
  {
    if n == 0 then []
    else OwnPieces(pieces, raw, n - 1)
         + [Event(if n == 1 then Some(raw) else None, Some(pieces[n - 1].frame), pieces[n - 1].usage)]
  }

  function OwnLine(parse: string -> Option<Chunk>, line: Line): seq<Event> {
    if line.Other? || line.payload == "" then []
    else
      var pieces := if line.payload == "[DONE]" then [] else PiecesOf(parse, line.payload);
      if pieces == [] then [RawOnly(RawOf(line.payload))] else OwnPieces(pieces, RawOf(line.payload), |pieces|)
  }

  function Own(parse: string -> Option<Chunk>, lines: seq<Line>, n: nat): seq<Event>
    requires n <= |lines|
  {
    if n == 0 then [] else Own(parse, lines, n - 1) + OwnLine(parse, lines[n - 1])
  }

  lemma {:induction false} CollectPiece<T(!new)>(f: Event -> seq<T>, model: string, t: Track, p: Piece,
                                          raw: Option<string>)
    requires QuietAround(f)
    ensures Collect(f, EmitPiece(model, t, p, raw).events) == f(Event(raw, Some(p.frame), p.usage))
  {
    var e := Event(raw, Some(p.frame), p.usage);
    var made := (if t.started then [] else [Synthesized(MessageStart(model))]) + Before(t.open, p.frame);
    assert forall k :: 0 <= k < |made| ==> MadeUp(made[k]) && !made[k].frame.value.MessageDelta?;
    CollectNothing(f, made);
    CollectConcat(f, made, [e]);
    CollectOne(f, e);
    assert [] + f(e) == f(e);
  }

  lemma {:induction false} CollectPieces<T(!new)>(f: Event -> seq<T>, model: string, t: Track, pieces: seq<Piece>,
                                           raw: string, n: nat)
    requires QuietAround(f) && n <= |pieces|
    ensures Collect(f, EmitPieces(model, t, pieces, raw, n).events) == Collect(f, OwnPieces(pieces, raw, n))
  {
    hide QuietAround, Collect, EmitPiece;
    if n > 0 {
      CollectPieces(f, model, t, pieces, raw, n - 1);
      var before, wire := EmitPieces(model, t, pieces, raw, n - 1), if n == 1 then Some(raw) else None;
      var e := Event(wire, Some(pieces[n - 1].frame), pieces[n - 1].usage);
      CollectPiece(f, model, before.track, pieces[n - 1], wire);
      CollectConcat(f, before.events, EmitPiece(model, before.track, pieces[n - 1], wire).events);
      CollectConcat(f, OwnPieces(pieces, raw, n - 1), [e]);
      CollectOne(f, e);
    }
  }

  lemma {:induction false} CollectDone<T(!new)>(f: Event -> seq<T>, t: Track)
    requires Quiet(f)
    ensures Collect(f, EmitDone(t).events) == f(RawOnly(RawOf("[DONE]")))
  {
    var made, raw := CloseEvents(Ascending(t.open)) + EndDelta(t) + EndStop(t), RawOnly(RawOf("[DONE]"));
    assert forall k :: 0 <= k < |made| ==> MadeUp(made[k]);
    CollectNothing(f, made);
    CollectConcat(f, made, [raw]);
    CollectOne(f, raw);
    assert [] + f(raw) == f(raw);
  }

  lemma {:induction false} CollectLine<T(!new)>(f: Event -> seq<T>, parse: string -> Option<Chunk>, model: string,
                                         t: Track, line: Line)
    requires Quiet(f)
    ensures Collect(f, EmitLine(parse, model, t, line).events) == Collect(f, OwnLine(parse, line))
  {
    assert QuietAround(f);
    hide Quiet, QuietAround, Collect, EmitDone, EmitPieces, OwnPieces, Canonical;
    if line.Data? && line.payload == "[DONE]" {
      CollectDone(f, t);
      CollectOne(f, RawOnly(RawOf("[DONE]")));
    } else if line.Data? && line.payload != "" {
      var pieces := PiecesOf(parse, line.payload);
      CollectPieces(f, model, t, pieces, RawOf(line.payload), |pieces|);
    }
  }

  /** Whatever is not in the made-up frames is in the stream as it is in the lines' own events. */
  lemma {:induction false} CollectRun<T(!new)>(f: Event -> seq<T>, parse: string -> Option<Chunk>, model: string,
                                        lines: seq<Line>, n: nat)
    requires Quiet(f) && n <= |lines|
    ensures Collect(f, Run(parse, model, lines, n).events) == Collect(f, Own(parse, lines, n))
  {
    hide Quiet, Collect, EmitLine, OwnLine;
    if n > 0 {
      CollectRun(f, parse, model, lines, n - 1);
      var before := Run(parse, model, lines, n - 1);
      CollectLine(f, parse, model, before.track, lines[n - 1]);
      CollectConcat(f, before.events, EmitLine(parse, model, before.track, lines[n - 1]).events);
      CollectConcat(f, Own(parse, lines, n - 1), OwnLine(parse, lines[n - 1]));
    }
  }

  // ---- what upstream sent, read off the chunks ------------------------------------------------------

  /** The first choice of a data line that parses. */
  function ChoiceOf(parse: string -> Option<Chunk>, line: Line): Option<Choice> {
    if line.Other? || line.payload == "" || line.payload == "[DONE]" then None
    else
      var chunk := parse(line.payload);
      if chunk.None? || chunk.value.choices == [] then None else Some(chunk.value.choices[0])
  }

  function SentText(parse: string -> Option<Chunk>, lines: seq<Line>, n: nat): string
    requires n <= |lines|
  {
    if n == 0 then ""
    else
      var ch := ChoiceOf(parse, lines[n - 1]);
      SentText(parse, lines, n - 1) + if ch.Some? && ch.value.content.Some? then ch.value.content.value else ""
  }

  /** The number upstream gives a tool call; one without a number counts under that of its choice. */
  function CallNumber(ch: Choice, tc: ToolCall): int {
    match tc.index
    case Some(j) => j
    case None => ch.index
  }

  function CallArguments(ch: Choice, n: nat, j: int): string
    requires n <= |ch.toolCalls|
  {
    if n == 0 then ""
    else CallArguments(ch, n - 1, j) + if CallNumber(ch, ch.toolCalls[n - 1]) == j then ch.toolCalls[n - 1].arguments else ""
  }

  /** The arguments upstream sent for its tool call number `j`. */
  function SentArguments(parse: string -> Option<Chunk>, lines: seq<Line>, n: nat, j: int): string
    requires n <= |lines|
  {
    if n == 0 then ""
    else
      var ch := ChoiceOf(parse, lines[n - 1]);
      SentArguments(parse, lines, n - 1, j) + if ch.Some? then CallArguments(ch.value, |ch.value.toolCalls|, j) else ""
  }

  datatype Opener = Opener(number: int, id: string, name: string)

  function CallOpeners(ch: Choice, n: nat): seq<Opener>
    requires n <= |ch.toolCalls|
  {
    if n == 0 then []
    else
      var tc := ch.toolCalls[n - 1];
      CallOpeners(ch, n - 1) + if tc.id != "" || tc.name != "" then [Opener(CallNumber(ch, tc), tc.id, tc.name)] else []
  }

  /** The tool calls upstream opened, with their numbers, ids and names. */
  function SentOpeners(parse: string -> Option<Chunk>, lines: seq<Line>, n: nat): seq<Opener>
    requires n <= |lines|
  {
    if n == 0 then []
    else
      var ch := ChoiceOf(parse, lines[n - 1]);
      SentOpeners(parse, lines, n - 1) + if ch.Some? then CallOpeners(ch.value, |ch.value.toolCalls|) else []
  }

  function SentUsage(parse: string -> Option<Chunk>, lines: seq<Line>, n: nat): seq<Usage>
    requires n <= |lines|
  {
    if n == 0 then []
    else
      var line := lines[n - 1];
      var chunk := if line.Other? || line.payload == "" || line.payload == "[DONE]" then None else parse(line.payload);
      SentUsage(parse, lines, n - 1)
      + if chunk.Some? && chunk.value.usage.Some? then [UsageOf(chunk.value.usage.value)] else []
  }

  function SentRaw(lines: seq<Line>, n: nat): seq<string>
    requires n <= |lines|
  {
    if n == 0 then []
    else
      var line := lines[n - 1];
      SentRaw(lines, n - 1) + if line.Data? && line.payload != "" then ["data: " + line.payload + "\n\n"] else []
  }

  // ---- conservation ---------------------------------------------------------------------------------

  lemma {:induction false} OwnRaw(pieces: seq<Piece>, raw: string, n: nat)
    requires n <= |pieces|
    ensures Collect(RawIn, OwnPieces(pieces, raw, n)) == if n == 0 then [] else [raw]
  {
    if n > 0 {
      OwnRaw(pieces, raw, n - 1);
    }
  }

  /** Every non-empty data line is passed on exactly once, in order. */
  lemma {:induction false} RawIsConserved(parse: string -> Option<Chunk>, model: string, lines: seq<Line>, n: nat)
    requires n <= |lines|
    ensures Collect(RawIn, Run(parse, model, lines, n).events) == SentRaw(lines, n)
  {
    hide Run;
    CollectRun(RawIn, parse, model, lines, n);
    OwnRawAll(parse, lines, n);
  }

  lemma {:induction false} OwnRawAll(parse: string -> Option<Chunk>, lines: seq<Line>, n: nat)
    requires n <= |lines|
    ensures Collect(RawIn, Own(parse, lines, n)) == SentRaw(lines, n)
  {
    hide Collect, OwnPieces, Canonical;
    CollectOne(RawIn, RawOnly(""));
    if n > 0 {
      var line := lines[n - 1];
      OwnRawAll(parse, lines, n - 1);
      CollectConcat(RawIn, Own(parse, lines, n - 1), OwnLine(parse, line));
      if line.Data? && line.payload != "" {
        var pieces := PiecesOf(parse, line.payload);
        OwnRaw(pieces, RawOf(line.payload), |pieces|);
        CollectOne(RawIn, RawOnly(RawOf(line.payload)));
      }
    }
  }

  /** f reads an event's frame as g reads the piece it came from. */
  ghost predicate Reads<T(!new)>(f: Event -> seq<T>, g: Piece -> seq<T>) {
    && (forall raw, p: Piece :: f(Event(raw, Some(p.frame), p.usage)) == g(p))
    && (forall raw :: f(RawOnly(raw)) == [])
  }

  lemma {:induction false} OwnReads<T(!new)>(f: Event -> seq<T>, g: Piece -> seq<T>, pieces: seq<Piece>,
                                      raw: string, n: nat)
    requires Reads(f, g) && n <= |pieces|
    ensures Collect(f, OwnPieces(pieces, raw, n)) == Collect(g, pieces[..n])
  {
    if n > 0 {
      OwnReads(f, g, pieces, raw, n - 1);
      assert pieces[..n][..n - 1] == pieces[..n - 1];
      var wire := if n == 1 then Some(raw) else None;
      assert f(Event(wire, Some(pieces[n - 1].frame), pieces[n - 1].usage)) == g(pieces[n - 1]);
    }
  }

  lemma {:induction false} OwnLineReads<T(!new)>(f: Event -> seq<T>, g: Piece -> seq<T>,
                                          parse: string -> Option<Chunk>, line: Line)
    requires Reads(f, g)
    ensures Collect(f, OwnLine(parse, line))
            == if line.Other? || line.payload == "" || line.payload == "[DONE]" then []
               else Collect(g, PiecesOf(parse, line.payload))
  {
    hide Collect, OwnPieces, Canonical;
    CollectOne(f, RawOnly(""));
    if line.Data? {
      CollectOne(f, RawOnly(RawOf(line.payload)));
      var pieces := PiecesOf(parse, line.payload);
      OwnReads(f, g, pieces, RawOf(line.payload), |pieces|);
      assert pieces[..|pieces|] == pieces;
      if pieces == [] {
        CollectOne(g, Piece(MessageStop, None));
      }
    }
  }

  // ---- text -----------------------------------------------------------------------------------------

  function TextPiece(p: Piece): string {
    if p.frame.TextDelta? then p.frame.text else ""
  }

  function ArgumentsPiece(i: int): Piece -> string {
    (p: Piece) => if p.frame.JsonDelta? && p.frame.index == i then p.frame.partial else ""
  }

  /** The usage moved onto the first frame changes nothing that g reads off the frames. */
  lemma {:induction false} CanonicalReads<T(!new)>(g: Piece -> seq<T>, chunk: Chunk)
    requires forall p: Piece, u :: g(p.(usage := u)) == g(p)
    requires forall stop, u :: g(Piece(MessageDelta(stop), u)) == []
    ensures Collect(g, Canonical(chunk)) == if chunk.choices == [] then [] else Collect(g, ChoiceFrames(chunk.choices[0]))
  {
    hide Collect, ChoiceFrames, UsageOf;
    var usage := if chunk.usage.Some? then Some(UsageOf(chunk.usage.value)) else None;
    var frames := if chunk.choices == [] then [] else ChoiceFrames(chunk.choices[0]);
    CollectOne(g, Piece(MessageDelta(None), usage));
    if frames != [] {
      assert frames == [frames[0]] + frames[1..];
      CollectConcat(g, [frames[0]], frames[1..]);
      CollectConcat(g, [frames[0].(usage := usage)], frames[1..]);
      CollectOne(g, frames[0]);
      CollectOne(g, frames[0].(usage := usage));
    }
  }

  lemma {:induction false} ToolText(ch: Choice, n: nat)
    requires n <= |ch.toolCalls|
    ensures Collect(TextPiece, AllToolFrames(ch, n)) == ""
  {
    hide Collect;
    CollectOne(TextPiece, Piece(MessageStop, None));
    if n > 0 {
      ToolText(ch, n - 1);
      CollectConcat(TextPiece, AllToolFrames(ch, n - 1), ToolFrames(ch, ch.toolCalls[n - 1]));
      CollectNothing(TextPiece, ToolFrames(ch, ch.toolCalls[n - 1]));
    }
  }

  lemma {:induction false} ChoiceText(ch: Choice)
    ensures Collect(TextPiece, ChoiceFrames(ch)) == if ch.content.Some? then ch.content.value else ""
  {
    hide Collect, AllToolFrames;
    var text, tools, finish := TextFrames(ch), AllToolFrames(ch, |ch.toolCalls|), FinishFrames(ch);
    CollectConcat(TextPiece, text + tools, finish);
    CollectConcat(TextPiece, text, tools);
    ToolText(ch, |ch.toolCalls|);
    CollectOne(TextPiece, Piece(MessageStop, None));
    if text != [] {
      CollectOne(TextPiece, text[0]);
    }
    if finish != [] {
      CollectOne(TextPiece, finish[0]);
    }
  }

  /** The text of the stream is the upstream text of each chunk's first choice, in order. */
  lemma {:induction false} TextIsConserved(parse: string -> Option<Chunk>, model: string, lines: seq<Line>, n: nat)
    requires n <= |lines|
    ensures Collect(TextIn, Run(parse, model, lines, n).events) == SentText(parse, lines, n)
  {
    hide Run;
    CollectRun(TextIn, parse, model, lines, n);
    OwnText(parse, lines, n);
  }

  lemma {:induction false} OwnText(parse: string -> Option<Chunk>, lines: seq<Line>, n: nat)
    requires n <= |lines|
    ensures Collect(TextIn, Own(parse, lines, n)) == SentText(parse, lines, n)
  {
    hide Collect, OwnLine, Canonical, ChoiceFrames;
    CollectOne(TextIn, RawOnly(""));
    CollectOne(TextPiece, Piece(MessageStop, None));
    if n > 0 {
      var line := lines[n - 1];
      OwnText(parse, lines, n - 1);
      CollectConcat(TextIn, Own(parse, lines, n - 1), OwnLine(parse, line));
      OwnLineReads(TextIn, TextPiece, parse, line);
      if line.Data? && parse(line.payload).Some? {
        var chunk := parse(line.payload).value;
        CanonicalReads(TextPiece, chunk);
        if chunk.choices != [] {
          ChoiceText(chunk.choices[0]);
        }
      }
    }
  }

  // ---- tool arguments -------------------------------------------------------------------------------

  lemma {:induction false} OneTool<T(!new)>(g: Piece -> seq<T>, ch: Choice, tc: ToolCall)
    ensures var i := CallNumber(ch, tc) + 1;
            Collect(g, ToolFrames(ch, tc))
            == (if tc.id != "" || tc.name != "" then g(Piece(ToolOpen(i, tc.id, tc.name), None)) else [])
               + (if tc.arguments != "" then g(Piece(JsonDelta(i, tc.arguments), None)) else [])
  {
    hide Collect;
    var i := CallNumber(ch, tc) + 1;
    var opener := if tc.id != "" || tc.name != "" then [Piece(ToolOpen(i, tc.id, tc.name), None)] else [];
    var delta := if tc.arguments != "" then [Piece(JsonDelta(i, tc.arguments), None)] else [];
    assert ToolFrames(ch, tc) == opener + delta;
    CollectConcat(g, opener, delta);
    CollectOne(g, Piece(ToolOpen(i, tc.id, tc.name), None));
    CollectOne(g, Piece(JsonDelta(i, tc.arguments), None));
  }

  lemma {:induction false} ToolArguments(ch: Choice, n: nat, j: int)
    requires n <= |ch.toolCalls|
    ensures Collect(ArgumentsPiece(j + 1), AllToolFrames(ch, n)) == CallArguments(ch, n, j)
  {
    hide Collect, ToolFrames, CallNumber;
    var g := ArgumentsPiece(j + 1);
    CollectOne(g, Piece(MessageStop, None));
    if n > 0 {
      ToolArguments(ch, n - 1, j);
      CollectConcat(g, AllToolFrames(ch, n - 1), ToolFrames(ch, ch.toolCalls[n - 1]));
      OneTool(g, ch, ch.toolCalls[n - 1]);
    }
  }

  /** What g sees in a choice, if it sees nothing in text and message-level frames. */
  lemma {:induction false} ChoiceTools<T(!new)>(g: Piece -> seq<T>, ch: Choice)
    requires forall p: Piece :: p.frame.TextDelta? || p.frame.MessageDelta? ==> g(p) == []
    ensures Collect(g, ChoiceFrames(ch)) == Collect(g, AllToolFrames(ch, |ch.toolCalls|))
  {
    hide Collect, AllToolFrames;
    var text, tools, finish := TextFrames(ch), AllToolFrames(ch, |ch.toolCalls|), FinishFrames(ch);
    CollectConcat(g, text + tools, finish);
    CollectConcat(g, text, tools);
    CollectNothing(g, text);
    CollectNothing(g, finish);
    assert [] + Collect(g, tools) + [] == Collect(g, tools);
  }

  /** The argument fragments of upstream tool call `j` are at block j + 1 of the stream, in order, and nowhere else. */
  lemma {:induction false} ArgumentsAreConserved(parse: string -> Option<Chunk>, model: string, lines: seq<Line>,
                                             n: nat, j: int)
    requires n <= |lines|
    ensures Collect(ArgumentsIn(j + 1), Run(parse, model, lines, n).events) == SentArguments(parse, lines, n, j)
  {
    hide Run;
    CollectRun(ArgumentsIn(j + 1), parse, model, lines, n);
    OwnArguments(parse, lines, n, j);
  }

  lemma {:induction false} OwnArguments(parse: string -> Option<Chunk>, lines: seq<Line>, n: nat, j: int)
    requires n <= |lines|
    ensures Collect(ArgumentsIn(j + 1), Own(parse, lines, n)) == SentArguments(parse, lines, n, j)
  {
    hide Collect, OwnLine, Canonical, ChoiceFrames, CallArguments, AllToolFrames;
    var f, g := ArgumentsIn(j + 1), ArgumentsPiece(j + 1);
    CollectOne(f, RawOnly(""));
    CollectOne(g, Piece(MessageStop, None));
    if n > 0 {
      var line := lines[n - 1];
      OwnArguments(parse, lines, n - 1, j);
      CollectConcat(f, Own(parse, lines, n - 1), OwnLine(parse, line));
      OwnLineReads(f, g, parse, line);
      if line.Data? && parse(line.payload).Some? {
        var chunk := parse(line.payload).value;
        CanonicalReads(g, chunk);
        if chunk.choices != [] {
          ChoiceTools(g, chunk.choices[0]);
          ToolArguments(chunk.choices[0], |chunk.choices[0].toolCalls|, j);
        }
      }
    }
  }

  // ---- tool openers ---------------------------------------------------------------------------------

  /** A tool block the stream opens, as the upstream call it stands for. */
  function OpenerIn(e: Event): seq<Opener> {
    if e.frame.Some? && e.frame.value.ToolOpen?
    then [Opener(e.frame.value.index - 1, e.frame.value.id, e.frame.value.name)] else []
  }

  function OpenerPiece(p: Piece): seq<Opener> {
    if p.frame.ToolOpen? then [Opener(p.frame.index - 1, p.frame.id, p.frame.name)] else []
  }

  lemma {:induction false} ToolOpeners(ch: Choice, n: nat)
    requires n <= |ch.toolCalls|
    ensures Collect(OpenerPiece, AllToolFrames(ch, n)) == CallOpeners(ch, n)
  {
    hide Collect, ToolFrames, CallNumber;
    CollectOne(OpenerPiece, Piece(MessageStop, None));
    if n > 0 {
      ToolOpeners(ch, n - 1);
      CollectConcat(OpenerPiece, AllToolFrames(ch, n - 1), ToolFrames(ch, ch.toolCalls[n - 1]));
      OneTool(OpenerPiece, ch, ch.toolCalls[n - 1]);
    }
  }

  /** The tool blocks of the stream are upstream's tool calls, each one block past its number, with id and name. */
  lemma {:induction false} OpenersAreConserved(parse: string -> Option<Chunk>, model: string, lines: seq<Line>, n: nat)
    requires n <= |lines|
    ensures Collect(OpenerIn, Run(parse, model, lines, n).events) == SentOpeners(parse, lines, n)
  {
    hide Run;
    CollectRun(OpenerIn, parse, model, lines, n);
    OwnOpeners(parse, lines, n);
  }

  lemma {:induction false} OwnOpeners(parse: string -> Option<Chunk>, lines: seq<Line>, n: nat)
    requires n <= |lines|
    ensures Collect(OpenerIn, Own(parse, lines, n)) == SentOpeners(parse, lines, n)
  {
    hide Collect, OwnLine, Canonical, ChoiceFrames, CallOpeners, AllToolFrames;
    CollectOne(OpenerIn, RawOnly(""));
    CollectOne(OpenerPiece, Piece(MessageStop, None));
    if n > 0 {
      var line := lines[n - 1];
      OwnOpeners(parse, lines, n - 1);
      CollectConcat(OpenerIn, Own(parse, lines, n - 1), OwnLine(parse, line));
      OwnLineReads(OpenerIn, OpenerPiece, parse, line);
      if line.Data? && parse(line.payload).Some? {
        var chunk := parse(line.payload).value;
        CanonicalReads(OpenerPiece, chunk);
        if chunk.choices != [] {
          ChoiceTools(OpenerPiece, chunk.choices[0]);
          ToolOpeners(chunk.choices[0], |chunk.choices[0].toolCalls|);
        }
      }
    }
  }

  // ---- usage ----------------------------------------------------------------------------------------

  function UsagePiece(p: Piece): seq<Usage> {
    if p.usage.Some? then [p.usage.value] else []
  }

  lemma {:induction false} ToolUsage(ch: Choice, n: nat)
    requires n <= |ch.toolCalls|
    ensures forall k :: 0 <= k < |AllToolFrames(ch, n)| ==> AllToolFrames(ch, n)[k].usage.None?
  {
    if n > 0 {
      ToolUsage(ch, n - 1);
    }
  }

  /** A chunk's usage rides on exactly one of its frames. */
  lemma {:induction false} ChunkUsage(chunk: Chunk)
    ensures Collect(UsagePiece, Canonical(chunk)) == if chunk.usage.Some? then [UsageOf(chunk.usage.value)] else []
  {
    hide Collect, AllToolFrames, UsageOf;
    var usage := if chunk.usage.Some? then Some(UsageOf(chunk.usage.value)) else None;
    CollectOne(UsagePiece, Piece(MessageDelta(None), usage));
    if chunk.choices != [] {
      var ch := chunk.choices[0];
      var frames := ChoiceFrames(ch);
      ToolUsage(ch, |ch.toolCalls|);
      assert forall k :: 0 <= k < |frames| ==> frames[k].usage.None?;
      if frames != [] {
        var first := frames[0].(usage := usage);
        CollectConcat(UsagePiece, [first], frames[1..]);
        CollectOne(UsagePiece, first);
        CollectNothing(UsagePiece, frames[1..]);
      }
    }
  }

  /** Each chunk's usage is in the stream exactly once, in order. */
  lemma {:induction false} UsageIsConserved(parse: string -> Option<Chunk>, model: string, lines: seq<Line>, n: nat)
    requires n <= |lines|
    ensures Collect(UsageIn, Run(parse, model, lines, n).events) == SentUsage(parse, lines, n)
  {
    hide Run;
    CollectRun(UsageIn, parse, model, lines, n);
    OwnUsage(parse, lines, n);
  }

  lemma {:induction false} OwnUsage(parse: string -> Option<Chunk>, lines: seq<Line>, n: nat)
    requires n <= |lines|
    ensures Collect(UsageIn, Own(parse, lines, n)) == SentUsage(parse, lines, n)
  {
    hide Collect, OwnLine, Canonical, UsageOf;
    CollectOne(UsageIn, RawOnly(""));
    CollectOne(UsagePiece, Piece(MessageStop, None));
    if n > 0 {
      var line := lines[n - 1];
      OwnUsage(parse, lines, n - 1);
      CollectConcat(UsageIn, Own(parse, lines, n - 1), OwnLine(parse, line));
      OwnLineReads(UsageIn, UsagePiece, parse, line);
      if line.Data? && parse(line.payload).Some? {
        ChunkUsage(parse(line.payload).value);
      }
    }
  }
}
