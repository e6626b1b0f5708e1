/**
 Tool calls on the two wires. Upstream numbers its tool calls from zero, apart from the text; the stream gives each
 a block of its own. The discipline below is read off the upstream chunks alone.
 */
module ChatTools {
  import opened Options
  import opened ChatFrames
  import opened ChatStream
  import opened ChatConserve

  // ---- the upstream wire ----------------------------------------------------------------------------

  /** What upstream says of its tool calls: a call begins, sends arguments, or everything so far is over. */
  datatype Signal = Opens(number: int) | Sends(number: int) | Ends

  function CallSignals(ch: Choice, n: nat): seq<Signal>
    requires n <= |ch.toolCalls|
  {
    if n == 0 then []
    else
      var tc := ch.toolCalls[n - 1];
      CallSignals(ch, n - 1)
      + (if tc.id != "" || tc.name != "" then [Opens(CallNumber(ch, tc))] else [])
      + (if tc.arguments != "" then [Sends(CallNumber(ch, tc))] else [])
  }

  /** A chunk ends what is open with a finish reason, or when it carries nothing but usage. */
  function ChunkSignals(chunk: Chunk): seq<Signal> {
    if chunk.choices == [] then if chunk.usage.Some? then [Ends] else []
    else
      var ch := chunk.choices[0];
      var calls := CallSignals(ch, |ch.toolCalls|);
      if ch.finish.Some? then calls + [Ends]
      else if calls == [] && ch.content in {None, Some("")} && chunk.usage.Some? then [Ends]
      else calls
  }

  function LineSignals(parse: string -> Option<Chunk>, line: Line): seq<Signal> {
    if line.Other? || line.payload == "" then []
    else if line.payload == "[DONE]" then [Ends]
    else match parse(line.payload)
      case None => []
      case Some(chunk) => ChunkSignals(chunk)
  }

  function Signals(parse: string -> Option<Chunk>, lines: seq<Line>, n: nat): seq<Signal>
    requires n <= |lines|
  {
    if n == 0 then [] else Signals(parse, lines, n - 1) + LineSignals(parse, lines[n - 1])
  }

  /** The calls that have begun since everything was last over. */
  function Going(signals: seq<Signal>): set<int> {
    if signals == [] then {} else GoingAfter(Going(signals[..|signals| - 1]), signals[|signals| - 1])
  }

  function GoingAfter(going: set<int>, s: Signal): set<int> {
    match s
    case Opens(j) => going + {j}
    case Sends(_) => going
    case Ends => {}
  }

  predicate InTurn(going: set<int>, s: Signal) {
    match s
    case Opens(j) => j !in going
    case Sends(j) => j in going
    case Ends => true
  }

  /** Each call begins once before everything is over, and sends arguments only after it has begun. */
  ghost predicate Disciplined(signals: seq<Signal>) {
    forall k :: 0 <= k < |signals| ==> InTurn(Going(signals[..k]), signals[k])
  }

  /** One choice, numbered zero, and no negative call numbers: what every client of one answer sees. */
  predicate PlainChoice(ch: Choice) {
    ch.index == 0 && forall k :: 0 <= k < |ch.toolCalls| ==> 0 <= CallNumber(ch, ch.toolCalls[k])
  }

  ghost predicate Plain(parse: string -> Option<Chunk>, lines: seq<Line>, n: nat)
    requires n <= |lines|
  {
    forall k :: 0 <= k < n && ChoiceOf(parse, lines[k]).Some? ==> PlainChoice(ChoiceOf(parse, lines[k]).value)
  }

  // ---- signals and canonical frames -----------------------------------------------------------------

  function FrameSignal(f: Frame): seq<Signal> {
    match f
    case ToolOpen(i, _, _) => [Opens(i - 1)]
    case JsonDelta(i, _) => [Sends(i - 1)]
    case MessageDelta(_) => [Ends]
    case _ => []
  }

  function PieceSignal(p: Piece): seq<Signal> {
    FrameSignal(p.frame)
  }

  function ItemSignal(it: Item): seq<Signal> {
    if it.Done? then [Ends] else FrameSignal(it.frame)
  }

  lemma {:induction false} ToolSignals(ch: Choice, n: nat)
    requires n <= |ch.toolCalls|
    ensures Collect(PieceSignal, AllToolFrames(ch, n)) == CallSignals(ch, n)
  {
    hide Collect, ToolFrames, CallNumber;
    CollectOne(PieceSignal, Piece(MessageStop, None));
    if n > 0 {
      ToolSignals(ch, n - 1);
      CollectConcat(PieceSignal, AllToolFrames(ch, n - 1), ToolFrames(ch, ch.toolCalls[n - 1]));
      OneTool(PieceSignal, ch, ch.toolCalls[n - 1]);
    }
  }

  lemma {:induction false} ChoiceSignals(ch: Choice)
    ensures Collect(PieceSignal, ChoiceFrames(ch)) == CallSignals(ch, |ch.toolCalls|) + if ch.finish.Some? then [Ends] else []
    ensures ChoiceFrames(ch) == [] <==>
            CallSignals(ch, |ch.toolCalls|) == [] && ch.content in {None, Some("")} && ch.finish.None?
  {
    hide Collect, AllToolFrames, CallSignals;
    var g := PieceSignal;
    var text, tools, finish := TextFrames(ch), AllToolFrames(ch, |ch.toolCalls|), FinishFrames(ch);
    CollectConcat(g, text + tools, finish);
    CollectConcat(g, text, tools);
    CollectNothing(g, text);
    ToolSignals(ch, |ch.toolCalls|);
    CollectOne(g, Piece(MessageDelta(Some(StopOf(if ch.finish.Some? then ch.finish.value else ""))), None));
    NoToolFrames(ch, |ch.toolCalls|);
    assert [] + Collect(g, tools) == Collect(g, tools);
  }

  lemma {:induction false} NoToolFrames(ch: Choice, n: nat)
    requires n <= |ch.toolCalls|
    ensures AllToolFrames(ch, n) == [] <==> CallSignals(ch, n) == []
  {
    if n > 0 {
      NoToolFrames(ch, n - 1);
    }
  }

  lemma {:induction false} ChunkSignalsAre(chunk: Chunk)
    ensures Collect(PieceSignal, Canonical(chunk)) == ChunkSignals(chunk)
  {
    hide Collect, ChoiceFrames, UsageOf, CallSignals;
    var g := PieceSignal;
    var usage := if chunk.usage.Some? then Some(UsageOf(chunk.usage.value)) else None;
    CollectOne(g, Piece(MessageDelta(None), usage));
    if chunk.choices != [] {
      var frames := ChoiceFrames(chunk.choices[0]);
      ChoiceSignals(chunk.choices[0]);
      if frames != [] {
        assert frames == [frames[0]] + frames[1..];
        CollectConcat(g, [frames[0]], frames[1..]);
        CollectConcat(g, [frames[0].(usage := usage)], frames[1..]);
        CollectOne(g, frames[0]);
        CollectOne(g, frames[0].(usage := usage));
      }
    }
  }

  lemma {:induction false} PieceItemSignals(pieces: seq<Piece>, n: nat)
    requires n <= |pieces|
    ensures Collect(ItemSignal, PieceItems(pieces, n)) == Collect(PieceSignal, pieces[..n])
  {
    if n > 0 {
      PieceItemSignals(pieces, n - 1);
      assert pieces[..n][..n - 1] == pieces[..n - 1];
    }
  }

  lemma {:induction false} LineSignalsAre(parse: string -> Option<Chunk>, line: Line)
    ensures Collect(ItemSignal, LineItems(parse, line)) == LineSignals(parse, line)
  {
    hide Collect, Canonical, ChunkSignals, PieceItems;
    CollectOne(ItemSignal, Done);
    if line.Data? && line.payload != "" && line.payload != "[DONE]" {
      var pieces := PiecesOf(parse, line.payload);
      PieceItemSignals(pieces, |pieces|);
      assert pieces[..|pieces|] == pieces;
      CollectOne(PieceSignal, Piece(MessageStop, None));
      if parse(line.payload).Some? {
        ChunkSignalsAre(parse(line.payload).value);
      }
    }
  }

  /** What the reader makes of the tool calls is what upstream said of them. */
  lemma {:induction false} SignalsAre(parse: string -> Option<Chunk>, lines: seq<Line>, n: nat)
    requires n <= |lines|
    ensures Collect(ItemSignal, Items(parse, lines, n)) == Signals(parse, lines, n)
  {
    hide Collect, LineItems, LineSignals;
    CollectOne(ItemSignal, Done);
    if n > 0 {
      SignalsAre(parse, lines, n - 1);
      LineSignalsAre(parse, lines[n - 1]);
      CollectConcat(ItemSignal, Items(parse, lines, n - 1), LineItems(parse, lines[n - 1]));
    }
  }

  // ---- blocks and calls -------------------------------------------------------------------------------

  /** Text is at block zero and tools are not. */
  predicate Apart(f: Frame) {
    match f
    case TextDelta(i, _) => i == 0
    case ToolOpen(i, _, _) => 1 <= i
    case JsonDelta(i, _) => 1 <= i
    case _ => true
  }

  lemma {:induction false} PushSignal(signals: seq<Signal>, s: Signal)
    ensures Going(signals + [s]) == GoingAfter(Going(signals), s)
    ensures Disciplined(signals + [s]) <==> Disciplined(signals) && InTurn(Going(signals), s)
  {
    hide InTurn;
    var more := signals + [s];
    assert more[..|signals|] == signals && more[|signals|] == s;
    assert forall k :: 0 <= k < |signals| ==> more[..k] == signals[..k] && more[k] == signals[k];
  }

  /** The blocks past zero are those of the calls. */
  ghost predicate Paired(live: set<int>, going: set<int>) {
    forall i :: 1 <= i ==> (i in live <==> CallAt(going, i))
  }

  /** The call of block `i` is going. */
  predicate CallAt(going: set<int>, i: int) {
    i - 1 in going
  }

  lemma {:induction false} PairedStep(live: set<int>, going: set<int>, it: Item)
    requires Paired(live, going) && (it.Up? ==> FromUpstream(it.frame) && Apart(it.frame))
    ensures var after, s := if it.Done? then {} else OpenAfter(live, it.frame), ItemSignal(it);
            if s == [] then Paired(after, going) && (it.Up? ==> InBlock(live, it.frame))
            else |s| == 1 && Paired(after, GoingAfter(going, s[0]))
                 && (it.Up? ==> (InBlock(live, it.frame) <==> InTurn(going, s[0])))
    ensures it.Done? ==> ItemSignal(it) == [Ends]
  {
    hide Paired, CallAt;
    PairedMore(live, going, 1);
    if it.Up? {
      match it.frame
      case ToolOpen(i, _, _) =>
        PairedMore(live, going, i);
        PairedAt(live, going, i);
      case JsonDelta(i, _) => PairedAt(live, going, i);
      case _ =>
    }
  }

  lemma {:induction false} PairedMore(live: set<int>, going: set<int>, i: int)
    requires Paired(live, going) && 1 <= i
    ensures Paired(live + {i}, going + {i - 1}) && Paired(live + {0}, going) && Paired({}, {})
  {
    forall k | 1 <= k
      ensures k in live + {i} <==> CallAt(going + {i - 1}, k)
    {
      assert k in live <==> CallAt(going, k);
    }
  }

  lemma {:induction false} PairedAt(live: set<int>, going: set<int>, i: int)
    requires Paired(live, going) && 1 <= i
    ensures i in live <==> i - 1 in going
  {
    assert i in live <==> CallAt(going, i);
  }

  /** While text and tools stay apart, a block past zero is live exactly when its call is going. */
  lemma {:induction false} TidyIffDisciplined(items: seq<Item>)
    requires forall k :: 0 <= k < |items| && items[k].Up? ==> FromUpstream(items[k].frame) && Apart(items[k].frame)
    ensures Paired(Live(items), Going(Collect(ItemSignal, items)))
    ensures Tidy(items) <==> Disciplined(Collect(ItemSignal, items))
  {
    hide *;
    if items == [] {
      NoItems();
    } else {
      var front, it := items[..|items| - 1], items[|items| - 1];
      TidyIffDisciplined(front);
      assert items == front + [it];
      PushItem(front, it);
      var was := Collect(ItemSignal, front);
      CollectConcat(ItemSignal, front, [it]);
      CollectOne(ItemSignal, it);
      PairedStep(Live(front), Going(was), it);
      if ItemSignal(it) == [] {
        assert was + [] == was;
      } else {
        var s := ItemSignal(it)[0];
        assert ItemSignal(it) == [s];
        PushSignal(was, s);
        EndsIsInTurn(Going(was));
      }
    }
  }

  lemma {:induction false} NoItems()
    ensures Paired(Live([]), Going(Collect(ItemSignal, []))) && Tidy([]) && Disciplined(Collect(ItemSignal, []))
  {
  }

  lemma {:induction false} EndsIsInTurn(going: set<int>)
    ensures InTurn(going, Ends)
  {
  }

  lemma {:induction false} ToolsApart(ch: Choice, n: nat)
    requires n <= |ch.toolCalls| && PlainChoice(ch)
    ensures forall k :: 0 <= k < |AllToolFrames(ch, n)| ==> Apart(AllToolFrames(ch, n)[k].frame)
  {
    if n > 0 {
      ToolsApart(ch, n - 1);
      assert 0 <= CallNumber(ch, ch.toolCalls[n - 1]);
    }
  }

  lemma {:induction false} PiecesApart(chunk: Chunk)
    requires chunk.choices != [] ==> PlainChoice(chunk.choices[0])
    ensures forall k :: 0 <= k < |Canonical(chunk)| ==> Apart(Canonical(chunk)[k].frame)
  {
    hide AllToolFrames;
    if chunk.choices != [] {
      ToolsApart(chunk.choices[0], |chunk.choices[0].toolCalls|);
    }
  }

  lemma {:induction false} ItemsApart(parse: string -> Option<Chunk>, lines: seq<Line>, n: nat)
    requires n <= |lines| && Plain(parse, lines, n)
    ensures forall k :: 0 <= k < |Items(parse, lines, n)| && Items(parse, lines, n)[k].Up? ==>
              FromUpstream(Items(parse, lines, n)[k].frame) && Apart(Items(parse, lines, n)[k].frame)
  {
    hide Apart, FromUpstream, Canonical, PlainChoice, PieceItems;
    if n > 0 {
      ItemsApart(parse, lines, n - 1);
      var line := lines[n - 1];
      if line.Data? && line.payload != "" && line.payload != "[DONE]" && parse(line.payload).Some? {
        var chunk := parse(line.payload).value;
        assert chunk.choices != [] ==> ChoiceOf(parse, line) == Some(chunk.choices[0]);
        PiecesApart(chunk);
        CanonicalKind(chunk);
        PieceItemsAre(Canonical(chunk), |Canonical(chunk)|);
      } else {
        PieceItemsAre([], 0);
      }
    }
  }

  lemma {:induction false} PieceItemsAre(pieces: seq<Piece>, n: nat)
    requires n <= |pieces|
    ensures |PieceItems(pieces, n)| == n && forall k :: 0 <= k < n ==> PieceItems(pieces, n)[k] == Up(pieces[k].frame)
  {
    if n > 0 {
      PieceItemsAre(pieces, n - 1);
    }
  }

  /**
   For a stream of one choice, tool frames respect blocks if and only if upstream begins each call once before it
   ends them, and sends a call's arguments only after it has begun.
   */
  lemma {:induction false} ToolsInBlocksIffDisciplined(parse: string -> Option<Chunk>, model: string, lines: seq<Line>,
                                                       n: nat)
    requires n <= |lines| && Plain(parse, lines, n)
    ensures ToolsInBlocks(FramesOf(Run(parse, model, lines, n).events)) <==> Disciplined(Signals(parse, lines, n))
  {
    hide *;
    ToolsInBlocksIffTidy(parse, model, lines, n);
    ItemsApart(parse, lines, n);
    TidyIffDisciplined(Items(parse, lines, n));
    SignalsAre(parse, lines, n);
  }

  // ---- text and tools never share a block ---------------------------------------------------------------

  function Strays(e: Event): seq<Frame> {
    if e.frame.Some? && !Apart(e.frame.value) then [e.frame.value] else []
  }

  function StrayPieces(p: Piece): seq<Frame> {
    if !Apart(p.frame) then [p.frame] else []
  }

  lemma {:induction false} NothingStrays(parse: string -> Option<Chunk>, lines: seq<Line>, n: nat)
    requires n <= |lines| && Plain(parse, lines, n)
    ensures Collect(Strays, Own(parse, lines, n)) == []
  {
    hide Collect, OwnLine, Canonical, PlainChoice;
    CollectOne(Strays, RawOnly(""));
    if n > 0 {
      var line := lines[n - 1];
      NothingStrays(parse, lines, n - 1);
      CollectConcat(Strays, Own(parse, lines, n - 1), OwnLine(parse, line));
      OwnLineReads(Strays, StrayPieces, parse, line);
      CollectOne(StrayPieces, Piece(MessageStop, None));
      if line.Data? && line.payload != "" && line.payload != "[DONE]" && parse(line.payload).Some? {
        var chunk := parse(line.payload).value;
        assert chunk.choices != [] ==> ChoiceOf(parse, line) == Some(chunk.choices[0]);
        PiecesApart(chunk);
        CollectNothing(StrayPieces, Canonical(chunk));
      }
    }
  }

  lemma {:induction false} CollectsAll<E, T>(f: E -> seq<T>, es: seq<E>)
    requires Collect(f, es) == []
    ensures forall k :: 0 <= k < |es| ==> f(es[k]) == []
  {
    if es != [] {
      CollectsAll(f, es[..|es| - 1]);
    }
  }

  /** In a stream of one choice all text is at block zero, and no tool frame is. */
  lemma {:induction false} TextAndToolsApart(parse: string -> Option<Chunk>, model: string, lines: seq<Line>, n: nat)
    requires n <= |lines| && Plain(parse, lines, n)
    ensures forall e :: e in Run(parse, model, lines, n).events && e.frame.Some? ==>
              match e.frame.value
              case TextDelta(i, _) => i == 0
              case ToolOpen(i, _, _) => i != 0
              case JsonDelta(i, _) => i != 0
              case _ => true
  {
    hide Run, Plain;
    var events := Run(parse, model, lines, n).events;
    CollectRun(Strays, parse, model, lines, n);
    NothingStrays(parse, lines, n);
    CollectsAll(Strays, events);
    forall e | e in events && e.frame.Some?
      ensures Apart(e.frame.value)
    {
      var k :| 0 <= k < |events| && events[k] == e;
    }
  }

  const SECOND: Choice := Choice(1, Some("Hi"), [ToolCall("c", "f", "", Some(0))], None)

  lemma {:induction false} SecondSignals(parse: string -> Option<Chunk>)
    requires parse("x") == Some(Chunk([SECOND], None))
    ensures Disciplined(Signals(parse, [Data("x")], 1))
  {
    assert CallSignals(SECOND, 0) == [];
    assert CallSignals(SECOND, 1) == [Opens(0)];
    assert Signals(parse, [Data("x")], 0) == [];
    assert LineSignals(parse, [Data("x")][0]) == [Opens(0)];
    assert Signals(parse, [Data("x")], 1) == [Opens(0)];
    assert [Opens(0)][..0] == [];
  }

  lemma {:induction false} SecondPieces()
    ensures Canonical(Chunk([SECOND], None)) == [Piece(TextDelta(1, "Hi"), None), Piece(ToolOpen(1, "c", "f"), None)]
  {
    assert ToolFrames(SECOND, SECOND.toolCalls[0]) == [Piece(ToolOpen(1, "c", "f"), None)];
    assert AllToolFrames(SECOND, 0) == [] && AllToolFrames(SECOND, 1) == [Piece(ToolOpen(1, "c", "f"), None)];
  }

  lemma {:induction false} SecondItems(parse: string -> Option<Chunk>)
    requires parse("x") == Some(Chunk([SECOND], None))
    ensures !Tidy(Items(parse, [Data("x")], 1))
  {
    hide Canonical, PieceItems;
    SecondPieces();
    var pieces, lines := Canonical(Chunk([SECOND], None)), [Data("x")];
    var items := [Up(TextDelta(1, "Hi")), Up(ToolOpen(1, "c", "f"))];
    PieceItemsAre(pieces, 2);
    assert PieceItems(pieces, 2) == items;
    assert Items(parse, lines, 0) == [] && Items(parse, lines, 1) == items;
    hide Items, LineItems, PiecesOf;
    assert items[..1] == [items[0]] && items[..1][..0] == [];
    assert Live(items[..1]) == {1};
    assert !InBlock(Live(items[..1]), items[1].frame);
  }

  /**
   Beyond one choice the shift is not enough: text of choice 1 is at block 1, and so is the first tool call. The
   upstream wire is disciplined, and the tool is opened on top of the open text block.
   */
  lemma {:induction false} SecondChoiceCollides(parse: string -> Option<Chunk>, model: string)
    requires parse("x") == Some(Chunk([SECOND], None))
    ensures Disciplined(Signals(parse, [Data("x")], 1))
    ensures !ToolsInBlocks(FramesOf(Run(parse, model, [Data("x")], 1).events))
  {
    hide *;
    SecondSignals(parse);
    SecondItems(parse);
    ToolsInBlocksIffTidy(parse, model, [Data("x")], 1);
  }
}
