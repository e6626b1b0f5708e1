/**
 Writer runs and the files they fill, together: a file that took every record verifies with the writers' own
 heads.
 */
module AuditRuns {
  import opened Options
  import opened AuditScan
  import opened AuditChain
  import opened AuditFile
  import opened AuditWriter

  /** One process: its instance, the log it found, and the records queued to it. */
  datatype Life = Life(instance: string, wal: string, entries: seq<Entry>)

  function End(c: Codec, l: Life): State {
    Run(c, l.instance, l.wal, l.entries, |l.entries|)
  }

  /** What the lives wrote; one that wrote nothing leaves no segment. */
  function SegmentsOf(c: Codec, lives: seq<Life>): seq<Segment> {
    if lives == [] then []
    else
      var l := lives[|lives| - 1];
      SegmentsOf(c, lives[..|lives| - 1]) + if End(c, l).lines == [] then [] else [Segment(l.instance, End(c, l).lines)]
  }

  /** The file that accepted every record of every life, in order. */
  function FileOf(c: Codec, lives: seq<Life>): seq<string> {
    if lives == [] then [] else FileOf(c, lives[..|lives| - 1]) + End(c, lives[|lives| - 1]).lines
  }

  ghost predicate DistinctLives(lives: seq<Life>) {
    forall j, k :: 0 <= j < k < |lives| ==> lives[j].instance != lives[k].instance
  }

  lemma {:induction false} SegmentsAreWritten(c: Codec, lives: seq<Life>)
    requires Lawful(c)
    ensures AllWritten(c, SegmentsOf(c, lives))
  {
    hide Run;
    if lives != [] {
      var l := lives[|lives| - 1];
      SegmentsAreWritten(c, lives[..|lives| - 1]);
      RunIsChained(c, l.instance, l.wal, l.entries, |l.entries|);
    }
  }

  /** Every segment comes from a life, and every life that wrote something has its segment. */
  lemma {:induction false} SegmentsFrom(c: Codec, lives: seq<Life>)
    ensures forall s :: s in SegmentsOf(c, lives) ==> exists k :: 0 <= k < |lives| && lives[k].instance == s.instance
    ensures forall k :: 0 <= k < |lives| && End(c, lives[k]).lines != [] ==>
              Segment(lives[k].instance, End(c, lives[k]).lines) in SegmentsOf(c, lives)
  {
    hide Run;
    if lives != [] {
      var front := lives[..|lives| - 1];
      SegmentsFrom(c, front);
      forall s | s in SegmentsOf(c, lives)
        ensures exists k :: 0 <= k < |lives| && lives[k].instance == s.instance
      {
        if s in SegmentsOf(c, front) {
          var k :| 0 <= k < |front| && front[k].instance == s.instance;
          assert lives[k].instance == s.instance;
        } else {
          assert lives[|lives| - 1].instance == s.instance;
        }
      }
      forall k | 0 <= k < |lives| && End(c, lives[k]).lines != []
        ensures Segment(lives[k].instance, End(c, lives[k]).lines) in SegmentsOf(c, lives)
      {
        assert k < |front| ==> front[k] == lives[k];
      }
    }
  }

  lemma {:induction false} SegmentsDistinct(c: Codec, lives: seq<Life>)
    requires DistinctLives(lives)
    ensures Distinct(SegmentsOf(c, lives))
  {
    hide Run;
    if lives != [] {
      var front, l := lives[..|lives| - 1], lives[|lives| - 1];
      SegmentsDistinct(c, front);
      SegmentsFrom(c, front);
      var before := SegmentsOf(c, front);
      forall j | 0 <= j < |before|
        ensures before[j].instance != l.instance
      {
        assert before[j] in before;
        var k :| 0 <= k < |front| && front[k].instance == before[j].instance;
        assert lives[k] == front[k];
      }
    }
  }

  lemma {:induction false} SegmentsFill(c: Codec, lives: seq<Life>)
    ensures AllLines(SegmentsOf(c, lives), |SegmentsOf(c, lives)|) == FileOf(c, lives)
  {
    hide Run;
    if lives != [] {
      var front, l := lives[..|lives| - 1], lives[|lives| - 1];
      SegmentsFill(c, front);
      var before := SegmentsOf(c, front);
      if End(c, l).lines == [] {
        assert before + [] == before && FileOf(c, front) + [] == FileOf(c, front);
      } else {
        AllLinesPrefix(before, [Segment(l.instance, End(c, l).lines)], |before|);
      }
    }
  }

  lemma {:induction false} AllLinesPrefix(a: seq<Segment>, b: seq<Segment>, n: nat)
    requires n <= |a|
    ensures AllLines(a + b, n) == AllLines(a, n)
  {
    if n > 0 {
      AllLinesPrefix(a, b, n - 1);
    }
  }

  /**
   A file that accepted every record of any number of processes with distinct instances verifies, and reports
   for each of them that wrote anything its last hash and its number of records - which are the head and count
   the process itself published, if none of its appends failed. Only a line too long for the scanner prevents
   it, as a read error.
   */
  lemma {:induction false} LivesVerify(c: Codec, lives: seq<Life>)
    requires Lawful(c) && AvoidsGenesis(c) && DistinctLives(lives)
    ensures var file := FileOf(c, lives); var out := Checked(c, Unlines(file));
            && (!AllShort(file) ==> out == ScanFailed)
            && (AllShort(file) ==>
                  && out.Verdict? && out.ok && out.records == |file|
                  && forall k :: 0 <= k < |lives| && End(c, lives[k]).lines != [] ==> Reported(c, out.instances, lives[k]))
  {
    hide Run, Checked, Lawful, AvoidsGenesis, AllWritten, Distinct, Reported, Heads, AllShort;
    var segments := SegmentsOf(c, lives);
    SegmentsAreWritten(c, lives);
    SegmentsDistinct(c, lives);
    SegmentsFill(c, lives);
    FileVerifies(c, segments);
    forall k | 0 <= k < |lives| && End(c, lives[k]).lines != []
      ensures Reported(c, Heads(c, segments, |segments|), lives[k])
    {
      SegmentsFrom(c, lives);
      HeadReported(c, segments, lives[k]);
    }
  }

  /** The answer names the life's last hash and number of records, the published ones if every append succeeded. */
  ghost predicate Reported(c: Codec, instances: map<string, InstanceState>, l: Life) {
    var st := End(c, l);
    && l.instance in instances && instances[l.instance] == InstanceState(Tip(c, st.lines), |st.lines|)
    && ((forall k :: 0 <= k < |st.durable| ==> st.durable[k])
        ==> instances[l.instance] == InstanceState(st.headHash, st.headCount))
  }

  lemma {:induction false} HeadReported(c: Codec, segments: seq<Segment>, l: Life)
    requires Distinct(segments) && Segment(l.instance, End(c, l).lines) in segments
    ensures Reported(c, Heads(c, segments, |segments|), l)
  {
    hide Run, Heads;
    var st := End(c, l);
    var i :| 0 <= i < |segments| && segments[i] == Segment(l.instance, st.lines);
    HeadsOf(c, segments, |segments|, i);
    RunPublishes(c, l.instance, l.wal, l.entries, |l.entries|);
    SuccessesCount(st.durable);
    assert st.lines[..|st.lines|] == st.lines;
  }
}
