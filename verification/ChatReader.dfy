/** The stream reader as it runs: one pass over the lines, three variables, frames handed out as they arise. */
module ChatReader {
  import opened Options
  import opened ChatFrames
  import opened ChatStream

  method Lowest(s: set<int>) returns (m: int)
    requires s != {}
    ensures m in s && forall x :: x in s ==> m <= x
  {
    assert (forall x :: x !in s) ==> s == {};
    m :| m in s;
    var left := s - {m};
    while left != {}
      invariant m in s && left <= s && forall x :: x in s && x !in left ==> m <= x
    {
      assert (forall x :: x !in left) ==> left == {};
      var x :| x in left;
      if x < m {
        m := x;
      }
      left := left - {x};
    }
  }

  lemma {:induction false} AscendingFirst(s: set<int>, m: int)
    requires m in s && forall x :: x in s ==> m <= x
    ensures Ascending(s) == [m] + Ascending(s - {m})
  {
    assert s != {} && Least(s) == m;
  }

  lemma {:induction false} ClosePush(closed: seq<int>, m: int)
    ensures CloseEvents(closed + [m]) == CloseEvents(closed) + [Synthesized(BlockStop(m))]
  {
  }

  lemma {:induction false} NothingClosed()
    ensures CloseEvents([]) == [] && Ascending({}) == []
  {
  }

  class Reader {
    const parse: string -> Option<Chunk>
    const model: string
    var openBlocks: set<int>
    var started: bool
    var sawMessageDelta: bool
    var yielded: seq<Event>

    ghost function Now(): Out
      reads this
    {
      Out(yielded, Track(openBlocks, started, sawMessageDelta))
    }

    constructor (parse: string -> Option<Chunk>, model: string)
      ensures this.parse == parse && this.model == model && Now() == Out([], IDLE)
    {
      this.parse, this.model := parse, model;
      openBlocks, started, sawMessageDelta, yielded := {}, false, false, [];
    }

    method Yield(e: Event)
      modifies this`yielded
      ensures yielded == old(yielded) + [e]
    {
      yielded := yielded + [e];
    }

    method StartMessage()
      modifies this`started, this`yielded
      ensures started && yielded == old(yielded) + if old(started) then [] else [Synthesized(MessageStart(model))]
    {
      if started {
        return;
      }
      started := true;
      Yield(Synthesized(MessageStart(model)));
    }

    /** Stops every open block, lowest index first. */
    method CloseOpenBlocks()
      modifies this`openBlocks, this`yielded
      ensures openBlocks == {} && yielded == old(yielded) + CloseEvents(Ascending(old(openBlocks)))
    {
      hide CloseEvents, Ascending;
      var left := openBlocks;
      ghost var closed: seq<int> := [];
      NothingClosed();
      assert [] + Ascending(left) == Ascending(left) && yielded + [] == yielded;
      while left != {}
        invariant openBlocks == old(openBlocks) && closed + Ascending(left) == Ascending(openBlocks)
        invariant yielded == old(yielded) + CloseEvents(closed)
      {
        var m := Lowest(left);
        Yield(Synthesized(BlockStop(m)));
        AscendingFirst(left, m);
        ClosePush(closed, m);
        assert closed + ([m] + Ascending(left - {m})) == closed + [m] + Ascending(left - {m});
        assert yielded == old(yielded) + CloseEvents(closed + [m]);
        left, closed := left - {m}, closed + [m];
      }
      assert closed + [] == closed;
      openBlocks := {};
    }

    /** One canonical frame, with whatever the OpenAI wire left out in front of it. */
    method Forward(p: Piece, raw: Option<string>)
      modifies this
      ensures var out := EmitPiece(model, old(Now()).track, p, raw);
              Now() == Out(old(yielded) + out.events, out.track)
    {
      hide CloseEvents, Ascending;
      var f := p.frame;
      ghost var start := if started then [] else [Synthesized(MessageStart(model))];
      ghost var t := Track(openBlocks, started, sawMessageDelta);
      StartMessage();
      ghost var mid := yielded;
      if f.ToolOpen? {
        openBlocks := openBlocks + {f.index};
      }
      if f.TextDelta? && f.index !in openBlocks {
        openBlocks := openBlocks + {f.index};
        Yield(Synthesized(TextOpen(f.index)));
      }
      if f.MessageDelta? {
        sawMessageDelta := true;
        CloseOpenBlocks();
      }
      assert yielded == mid + Before(t.open, f);
      assert openBlocks == OpenAfter(t.open, f);
      Yield(Event(raw, Some(f), p.usage));
      assert yielded == old(yielded) + (start + Before(t.open, f) + [Event(raw, Some(f), p.usage)]);
    }

    method Finish()
      modifies this
      ensures var out := EmitDone(old(Now()).track); Now() == Out(old(yielded) + out.events, out.track)
    {
      hide CloseEvents, Ascending;
      ghost var t := Track(openBlocks, started, sawMessageDelta);
      CloseOpenBlocks();
      ghost var mid := yielded;
      if started && !sawMessageDelta {
        Yield(Synthesized(MessageDelta(Some("end_turn"))));
      }
      if started {
        Yield(Synthesized(MessageStop));
      }
      assert yielded == mid + EndDelta(t) + EndStop(t);
      Yield(RawOnly(RawOf("[DONE]")));
      assert yielded == old(yielded) + (CloseEvents(Ascending(t.open)) + EndDelta(t) + EndStop(t) + [RawOnly(RawOf("[DONE]"))]);
    }

    method ReadLine(line: Line)
      modifies this
      ensures var out := EmitLine(parse, model, old(Now()).track, line);
              Now() == Out(old(yielded) + out.events, out.track)
    {
      hide EmitPiece, EmitDone, Canonical;
      if line.Other? || line.payload == "" {
        return;
      }
      if line.payload == "[DONE]" {
        Finish();
        return;
      }
      var chunk := parse(line.payload);
      var pieces := [];
      if chunk.Some? {
        pieces := ChunkToCanonical(chunk.value);
      }
      if |pieces| == 0 {
        Yield(RawOnly(RawOf(line.payload)));
        return;
      }
      ghost var before := Now();
      var raw := RawOf(line.payload);
      for n := 0 to |pieces|
        invariant var out := EmitPieces(model, before.track, pieces, raw, n);
                  Now() == Out(before.events + out.events, out.track)
      {
        Forward(pieces[n], if n == 0 then Some(raw) else None);
      }
    }

    /** Reads the lines of a stream to its end. */
    method Read(lines: seq<Line>)
      requires Now() == Out([], IDLE)
      modifies this
      ensures Now() == Run(parse, model, lines, |lines|)
    {
      hide EmitLine;
      for n := 0 to |lines|
        invariant Now() == Run(parse, model, lines, n)
      {
        ReadLine(lines[n]);
      }
    }
  }
}
