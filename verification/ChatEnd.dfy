/** Where a translated stream ends: what may follow the first message_stop. */
module ChatEnd {
  import opened Options
  import opened ChatFrames
  import opened ChatStream

  predicate IsDone(line: Line) {
    line == Data("[DONE]")
  }

  /** The line carries at least one canonical frame. */
  predicate Speaks(parse: string -> Option<Chunk>, line: Line) {
    line.Data? && line.payload != "" && line.payload != "[DONE]" && PiecesOf(parse, line.payload) != []
  }

  ghost predicate SpokeBefore(parse: string -> Option<Chunk>, lines: seq<Line>, n: nat) {
    exists j: nat :: j < n && j < |lines| && Speaks(parse, lines[j])
  }

  /** Line i is an end marker of a message that has started. */
  ghost predicate EndsAt(parse: string -> Option<Chunk>, lines: seq<Line>, i: nat) {
    i < |lines| && IsDone(lines[i]) && SpokeBefore(parse, lines, i)
  }

  // ---- no message_stop but from an end marker -------------------------------------------------------

  ghost predicate NoStop(events: seq<Event>) {
    forall k :: 0 <= k < |events| ==> events[k].frame != Some(MessageStop)
  }

  lemma {:induction false} NoStopFrames(events: seq<Event>)
    requires NoStop(events)
    ensures MessageStop !in FramesOf(events)
  {
    if events != [] {
      NoStopFrames(events[..|events| - 1]);
    }
  }

  lemma {:induction false} PieceSpeaks(model: string, t: Track, p: Piece, raw: Option<string>)
    requires FromUpstream(p.frame)
    ensures var out := EmitPiece(model, t, p, raw);
            NoStop(out.events) && out.track.started && p.frame in FramesOf(out.events)
  {
    hide FramesOf, OpenAfter;
    var e := Event(raw, Some(p.frame), p.usage);
    var made := (if t.started then [] else [Synthesized(MessageStart(model))]) + Before(t.open, p.frame);
    OpenersDoNotStop(t.open, p.frame);
    FramesPush(made, e);
    hide Before;
    assert p.frame in FrameOf(e);
  }

  lemma {:induction false} OpenersDoNotStop(open: set<int>, f: Frame)
    ensures NoStop(Before(open, f))
  {
  }

  lemma {:induction false} PiecesSpeak(model: string, t: Track, pieces: seq<Piece>, raw: string, n: nat)
    requires 0 < n <= |pieces| && forall k :: 0 <= k < |pieces| ==> FromUpstream(pieces[k].frame)
    ensures var out := EmitPieces(model, t, pieces, raw, n);
            NoStop(out.events) && out.track.started && FramesOf(out.events) != []
  {
    hide EmitPiece, FramesOf, FromUpstream;
    var before, wire := EmitPieces(model, t, pieces, raw, n - 1), if n == 1 then Some(raw) else None;
    if n > 1 {
      PiecesSpeak(model, t, pieces, raw, n - 1);
    }
    PieceSpeaks(model, before.track, pieces[n - 1], wire);
    var next := EmitPiece(model, before.track, pieces[n - 1], wire);
    FramesConcat(before.events, next.events);
  }

  lemma {:induction false} FramesConcat(a: seq<Event>, b: seq<Event>)
    ensures FramesOf(a + b) == FramesOf(a) + FramesOf(b)
  {
    CollectConcat(FrameOf, a, b);
  }

  /** At an end marker a started message gets its one message_stop, last; one that has not started gets nothing. */
  lemma {:induction false} DoneStops(t: Track)
    requires !t.started ==> t.open == {}
    ensures var frames := FramesOf(EmitDone(t).events);
            if t.started then frames != [] && frames[|frames| - 1] == MessageStop && MessageStop !in frames[..|frames| - 1]
            else frames == []
  {
    hide Ascending, FramesOf;
    var raw := RawOnly(RawOf("[DONE]"));
    var made := CloseEvents(Ascending(t.open)) + EndDelta(t);
    var all := made + EndStop(t);
    FramesPush(all, raw);
    assert EmitDone(t).events == all + [raw];
    assert FramesOf(all) + [] == FramesOf(all);
    if t.started {
      FramesPush(made, Synthesized(MessageStop));
      assert NoStop(made);
      NoStopFrames(made);
      assert (FramesOf(made) + [MessageStop])[..|FramesOf(made)|] == FramesOf(made);
    } else {
      NothingOpen();
      assert all == [];
      NoFrames();
    }
  }

  lemma {:induction false} NothingOpen()
    ensures Ascending({}) == []
  {
  }

  lemma {:induction false} NoFrames()
    ensures FramesOf([]) == []
  {
  }

  // ---- line by line ---------------------------------------------------------------------------------

  /** What one line adds to the frames. */
  ghost predicate AddsFrames(parse: string -> Option<Chunk>, t: Track, line: Line, added: seq<Frame>, after: Track) {
    if Speaks(parse, line) then added != [] && MessageStop !in added && after.started
    else if IsDone(line) && t.started then
      added != [] && added[|added| - 1] == MessageStop && MessageStop !in added[..|added| - 1] && after.started
    else added == [] && after.started == t.started
  }

  lemma {:induction false} LineAdds(parse: string -> Option<Chunk>, model: string, t: Track, line: Line)
    requires !t.started ==> t.open == {}
    ensures var out := EmitLine(parse, model, t, line); AddsFrames(parse, t, line, FramesOf(out.events), out.track)
  {
    hide EmitPieces, FramesOf, Canonical;
    NoFrames();
    if line.Data? && line.payload == "[DONE]" {
      DoneStops(t);
    } else if Speaks(parse, line) {
      CanonicalKind(parse(line.payload).value);
      var pieces := PiecesOf(parse, line.payload);
      PiecesSpeak(model, t, pieces, RawOf(line.payload), |pieces|);
      NoStopFrames(EmitPieces(model, t, pieces, RawOf(line.payload), |pieces|).events);
    } else if line.Data? {
      FramesPush([], RawOnly(RawOf(line.payload)));
      assert [] + [RawOnly(RawOf(line.payload))] == [RawOnly(RawOf(line.payload))];
    }
  }

  lemma {:induction false} RunAdds(parse: string -> Option<Chunk>, model: string, lines: seq<Line>, n: nat)
    requires n < |lines|
    ensures var before, now := Run(parse, model, lines, n), Run(parse, model, lines, n + 1);
            exists added :: FramesOf(now.events) == FramesOf(before.events) + added
                              && AddsFrames(parse, before.track, lines[n], added, now.track)
  {
    hide EmitLine, FramesOf, AddsFrames, WellFormed, Tidy, ToolsInBlocks, Opened, HasDelta, Live;
    var before := Run(parse, model, lines, n);
    RunFollows(parse, model, lines, n);
    LineAdds(parse, model, before.track, lines[n]);
    var out := EmitLine(parse, model, before.track, lines[n]);
    FramesConcat(before.events, out.events);
    assert AddsFrames(parse, before.track, lines[n], FramesOf(out.events), out.track);
  }

  lemma {:induction false} StartedIffSpoke(parse: string -> Option<Chunk>, model: string, lines: seq<Line>, n: nat)
    requires n <= |lines|
    ensures Run(parse, model, lines, n).track.started <==> SpokeBefore(parse, lines, n)
  {
    hide EmitLine, FramesOf, Speaks;
    if n > 0 {
      StartedIffSpoke(parse, model, lines, n - 1);
      RunAdds(parse, model, lines, n - 1);
      assert SpokeBefore(parse, lines, n) <==> SpokeBefore(parse, lines, n - 1) || Speaks(parse, lines[n - 1]);
    }
  }

  /** Before the first end marker of a started message there is no message_stop. */
  lemma {:induction false} NoStopYet(parse: string -> Option<Chunk>, model: string, lines: seq<Line>, n: nat)
    requires n <= |lines| && forall k: nat :: k < n ==> !EndsAt(parse, lines, k)
    ensures MessageStop !in FramesOf(Run(parse, model, lines, n).events)
  {
    hide EmitLine, FramesOf, Speaks, SpokeBefore;
    if n == 0 {
      NoFrames();
    } else {
      NoStopYet(parse, model, lines, n - 1);
      RunAdds(parse, model, lines, n - 1);
      StartedIffSpoke(parse, model, lines, n - 1);
      assert !EndsAt(parse, lines, n - 1);
    }
  }

  /** After it, lines that neither speak nor end add nothing, and any other line adds a frame. */
  lemma {:induction false} AfterEnd(parse: string -> Option<Chunk>, model: string, lines: seq<Line>, i: nat, n: nat)
    requires EndsAt(parse, lines, i) && i < n <= |lines|
    ensures var first, all := FramesOf(Run(parse, model, lines, i + 1).events), FramesOf(Run(parse, model, lines, n).events);
            && |first| <= |all| && all[..|first|] == first
            && (|all| == |first| <==> forall k :: i < k < n ==> !Speaks(parse, lines[k]) && !IsDone(lines[k]))
  {
    hide EmitLine, FramesOf, Speaks, SpokeBefore, Run;
    var first := FramesOf(Run(parse, model, lines, i + 1).events);
    if n == i + 1 {
      assert first[..|first|] == first;
    } else {
      AfterEnd(parse, model, lines, i, n - 1);
      RunAdds(parse, model, lines, n - 1);
      StartedIffSpoke(parse, model, lines, n - 1);
      SpokeLater(parse, lines, i, n - 1);
      var before, all := FramesOf(Run(parse, model, lines, n - 1).events), FramesOf(Run(parse, model, lines, n).events);
      assert all[..|first|] == before[..|first|];
      assert (forall k :: i < k < n ==> !Speaks(parse, lines[k]) && !IsDone(lines[k]))
        <==> (forall k :: i < k < n - 1 ==> !Speaks(parse, lines[k]) && !IsDone(lines[k]))
             && !Speaks(parse, lines[n - 1]) && !IsDone(lines[n - 1]);
    }
  }

  lemma {:induction false} SpokeLater(parse: string -> Option<Chunk>, lines: seq<Line>, i: nat, n: nat)
    requires SpokeBefore(parse, lines, i) && i <= n
    ensures SpokeBefore(parse, lines, n)
  {
    var j: nat :| j < i && j < |lines| && Speaks(parse, lines[j]);
    assert j < n;
  }

  /**
   Nothing follows a message_stop exactly when every line after the first end marker of a started message is
   silent: it neither carries a frame nor is another end marker. The reader itself does not stop there.
   */
  lemma {:induction false} StopIsLastIff(parse: string -> Option<Chunk>, model: string, lines: seq<Line>, i: nat,
                                         n: nat)
    requires EndsAt(parse, lines, i) && i < n <= |lines| && forall k: nat :: k < i ==> !EndsAt(parse, lines, k)
    ensures var all := FramesOf(Run(parse, model, lines, n).events);
            (forall k :: 0 <= k < |all| && all[k] == MessageStop ==> k == |all| - 1)
            <==> (forall k :: i < k < n ==> !Speaks(parse, lines[k]) && !IsDone(lines[k]))
  {
    hide EmitLine, FramesOf, Speaks, SpokeBefore, Run;
    NoStopYet(parse, model, lines, i);
    RunAdds(parse, model, lines, i);
    StartedIffSpoke(parse, model, lines, i);
    AfterEnd(parse, model, lines, i, n);
    SpeaksOrEnds(parse, lines[i]);
    var before, first := FramesOf(Run(parse, model, lines, i).events), FramesOf(Run(parse, model, lines, i + 1).events);
    var all := FramesOf(Run(parse, model, lines, n).events);
    assert first[|first| - 1] == MessageStop;
    assert all[|first| - 1] == all[..|first|][|first| - 1];
    if |all| == |first| {
      assert all == first;
    }
  }

  lemma {:induction false} SpeaksOrEnds(parse: string -> Option<Chunk>, line: Line)
    requires IsDone(line)
    ensures !Speaks(parse, line)
  {
  }

  /** A second end marker: a message_stop that is not the last frame. */
  lemma {:induction false} StopTwice(parse: string -> Option<Chunk>, model: string, payload: string)
    requires Speaks(parse, Data(payload))
    ensures var all := FramesOf(Run(parse, model, [Data(payload), Data("[DONE]"), Data("[DONE]")], 3).events);
            exists k :: 0 <= k < |all| - 1 && all[k] == MessageStop
  {
    hide Run, FramesOf;
    var lines := [Data(payload), Data("[DONE]"), Data("[DONE]")];
    assert Speaks(parse, lines[0]) && IsDone(lines[1]) && IsDone(lines[2]);
    assert SpokeBefore(parse, lines, 1);
    assert EndsAt(parse, lines, 1) && !EndsAt(parse, lines, 0);
    StopIsLastIff(parse, model, lines, 1, 3);
  }
}
