/** The Anthropic frame vocabulary, and the order its clients rely on, read off the frames alone. */
module ChatFrames {
  import opened Options

  datatype Frame =
    | MessageStart(model: string)
    | TextOpen(index: int)
    | ToolOpen(index: int, id: string, name: string)
    | TextDelta(index: int, text: string)
    | JsonDelta(index: int, partial: string)
    | BlockStop(index: int)
    | MessageDelta(stop: Option<string>)
    | MessageStop

  /** The block indices that are open after these frames. */
  function Opened(frames: seq<Frame>): set<int> {
    if frames == [] then {} else Reopened(Opened(frames[..|frames| - 1]), frames[|frames| - 1])
  }

  function Reopened(open: set<int>, f: Frame): set<int> {
    match f
    case TextOpen(i) => open + {i}
    case ToolOpen(i, _, _) => open + {i}
    case BlockStop(i) => open - {i}
    case _ => open
  }

  predicate HasDelta(frames: seq<Frame>) {
    exists k :: 0 <= k < |frames| && frames[k].MessageDelta?
  }

  /** May this frame come next? */
  predicate Legal(before: seq<Frame>, f: Frame) {
    && (f.MessageStart? <==> before == [])
    && match f
       case TextOpen(i) => i !in Opened(before)
       case TextDelta(i, _) => i in Opened(before)
       case BlockStop(i) => i in Opened(before)
       case MessageDelta(_) => Opened(before) == {}
       case MessageStop => Opened(before) == {} && HasDelta(before)
       case _ => true
  }

  /**
   One message_start, first; text only inside an open block, and a text block opened only where none is open;
   only open blocks stop; nothing open at a message-level frame; a message_delta before message_stop. Every
   prefix of such a stream is one too.
   */
  ghost predicate WellFormed(frames: seq<Frame>) {
    forall k :: 0 <= k < |frames| ==> Legal(frames[..k], frames[k])
  }

  /** The same discipline for tool blocks. */
  predicate StrictlyLegal(before: seq<Frame>, f: Frame) {
    match f
    case ToolOpen(i, _, _) => i !in Opened(before)
    case JsonDelta(i, _) => i in Opened(before)
    case _ => true
  }

  ghost predicate ToolsInBlocks(frames: seq<Frame>) {
    forall k :: 0 <= k < |frames| ==> StrictlyLegal(frames[..k], frames[k])
  }

  lemma {:induction false} ExtendFrames(frames: seq<Frame>, f: Frame)
    ensures Opened(frames + [f]) == Reopened(Opened(frames), f)
    ensures HasDelta(frames + [f]) <==> HasDelta(frames) || f.MessageDelta?
    ensures WellFormed(frames + [f]) <==> WellFormed(frames) && Legal(frames, f)
    ensures ToolsInBlocks(frames + [f]) <==> ToolsInBlocks(frames) && StrictlyLegal(frames, f)
  {
    hide Legal, StrictlyLegal, Reopened, WellFormed, ToolsInBlocks, HasDelta;
    assert (frames + [f])[..|frames|] == frames;
    ExtendDelta(frames, f);
    ExtendOrder(frames, f);
  }

  lemma {:induction false} ExtendDelta(frames: seq<Frame>, f: Frame)
    ensures HasDelta(frames + [f]) <==> HasDelta(frames) || f.MessageDelta?
  {
    var more := frames + [f];
    assert more[|frames|] == f;
    assert forall k :: 0 <= k < |frames| ==> more[k] == frames[k];
    if HasDelta(frames) {
      var k :| 0 <= k < |frames| && frames[k].MessageDelta?;
      assert more[k].MessageDelta?;
    }
  }

  lemma {:induction false} ExtendOrder(frames: seq<Frame>, f: Frame)
    ensures WellFormed(frames + [f]) <==> WellFormed(frames) && Legal(frames, f)
    ensures ToolsInBlocks(frames + [f]) <==> ToolsInBlocks(frames) && StrictlyLegal(frames, f)
  {
    hide Legal, StrictlyLegal;
    var more := frames + [f];
    assert more[..|frames|] == frames && more[|frames|] == f;
    assert forall k :: 0 <= k < |frames| ==> more[..k] == frames[..k] && more[k] == frames[k];
  }

  /** How often block index `i` went from closed to open. */
  function Openings(frames: seq<Frame>, i: int): nat {
    if frames == [] then 0
    else
      var before, f := frames[..|frames| - 1], frames[|frames| - 1];
      Openings(before, i) + if i in Reopened(Opened(before), f) && i !in Opened(before) then 1 else 0
  }

  /** How often block index `i` was stopped. */
  function Stops(frames: seq<Frame>, i: int): nat {
    if frames == [] then 0
    else Stops(frames[..|frames| - 1], i) + if frames[|frames| - 1] == BlockStop(i) then 1 else 0
  }

  /**
   In a well-formed stream, an index was stopped as often as it went from closed to open, less one if it is open
   now.
   */
  lemma {:induction false} EveryOpeningStopsOnce(frames: seq<Frame>, i: int)
    requires WellFormed(frames)
    ensures Openings(frames, i) == Stops(frames, i) + if i in Opened(frames) then 1 else 0
  {
    if frames != [] {
      var n := |frames| - 1;
      assert frames == frames[..n] + [frames[n]];
      ExtendFrames(frames[..n], frames[n]);
      EveryOpeningStopsOnce(frames[..n], i);
    }
  }

  // ---- ascending order ------------------------------------------------------------------------------

  ghost function Least(s: set<int>): (m: int)
    requires s != {}
    ensures m in s && forall x :: x in s ==> m <= x
  {
    assert (forall x :: x !in s) ==> s == {};
    var x :| x in s;
    var rest := s - {x};
    assert s == rest + {x};
    if rest == {} then x
    else
      var y := Least(rest);
      if x < y then x else y
  }

  /** The members of a set, smallest first. */
  ghost function Ascending(s: set<int>): (r: seq<int>)
    ensures forall x :: x in r <==> x in s
    ensures forall j, k :: 0 <= j < k < |r| ==> r[j] < r[k]
  {
    if s == {} then [] else [Least(s)] + Ascending(s - {Least(s)})
  }
}
