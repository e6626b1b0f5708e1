/** Files that hold every record of one or more writer runs, and what the checkers say of them. */
module AuditFile {
  import opened Options
  import opened AuditScan
  import opened AuditChain

  /** The records of one writer's life. */
  datatype Segment = Segment(instance: string, lines: seq<string>)

  ghost predicate Written(c: Codec, s: Segment) {
    s.lines != [] && Linked(c, s.instance, s.lines) && AllProper(s.lines)
  }

  ghost predicate AllWritten(c: Codec, segments: seq<Segment>) {
    forall k :: 0 <= k < |segments| ==> Written(c, segments[k])
  }

  function AllLines(segments: seq<Segment>, n: nat): seq<string>
    requires n <= |segments|
  {
    if n == 0 then [] else AllLines(segments, n - 1) + segments[n - 1].lines
  }

  ghost predicate Alternates(segments: seq<Segment>, n: nat) {
    forall k :: 0 < k < n <= |segments| ==> segments[k - 1].instance != segments[k].instance
  }

  ghost predicate AllGood(c: Codec, recs: seq<string>) {
    forall i: nat :: i < |recs| ==> GoodAt(c, recs, i)
  }

  lemma {:induction false} GoodInPrefix(c: Codec, a: seq<string>, b: seq<string>, i: nat)
    requires i < |a|
    ensures GoodAt(c, a + b, i) <==> GoodAt(c, a, i)
    ensures Continues(c, a + b, i) <==> Continues(c, a, i)
    ensures SegmentLength(c, a + b, i) == SegmentLength(c, a, i)
  {
    if Continues(c, a, i) {
      GoodInPrefix(c, a, b, i - 1);
    }
  }

  /** The last line of a non-empty list of segments belongs to the last of them. */
  lemma {:induction false} LastLine(c: Codec, segments: seq<Segment>, n: nat)
    requires 0 < n <= |segments| && AllWritten(c, segments)
    ensures var file := AllLines(segments, n);
            file != [] && c.parse(file[|file| - 1]).Some? && c.parse(file[|file| - 1]).value.instance == segments[n - 1].instance
  {
    var s := segments[n - 1];
    assert Written(c, s);
    assert c.parse(s.lines[|s.lines| - 1]).Some?;
    var file := AllLines(segments, n);
    assert file[|file| - 1] == s.lines[|s.lines| - 1];
  }

  /** What line j of a run carries. */
  lemma {:induction false} LineLinks(c: Codec, s: Segment, j: nat)
    requires Written(c, s) && j < |s.lines|
    ensures c.parse(s.lines[j]) == Some(Link(s.instance, if j == 0 then GENESIS else c.hash(s.lines[j - 1])))
  {
    assert c.parse(s.lines[j]) == Some(Link(s.instance, Tip(c, s.lines[..j])));
  }

  /** Line j of a run that follows other lines. */
  lemma {:induction false} LineOfRun(c: Codec, before: seq<string>, s: Segment, j: nat)
    requires Written(c, s) && j < |s.lines| && AvoidsGenesis(c)
    requires before != [] ==> c.parse(before[|before| - 1]).Some?
    ensures var file := before + s.lines;
            var joins := before != [] && c.parse(before[|before| - 1]).value.instance == s.instance;
            && GoodAt(c, file, |before| + j) == (j > 0 || !joins)
            && (!joins ==> SegmentLength(c, file, |before| + j) == j + 1)
  {
    hide Written, Linked, Tip;
    var file, at := before + s.lines, |before| + j;
    assert file[at] == s.lines[j];
    LineLinks(c, s, j);
    if j > 0 {
      LineOfRun(c, before, s, j - 1);
      LineLinks(c, s, j - 1);
      assert file[at - 1] == s.lines[j - 1];
      assert Continues(c, file, at);
    } else if before != [] {
      assert file[at - 1] == before[|before| - 1];
    }
  }

  /** Appending a run to a file keeps it good exactly when the run does not continue the last instance. */
  lemma {:induction false} GoodWithRun(c: Codec, before: seq<string>, s: Segment)
    requires Written(c, s) && AvoidsGenesis(c) && (before != [] ==> c.parse(before[|before| - 1]).Some?)
    ensures var joins := before != [] && c.parse(before[|before| - 1]).value.instance == s.instance;
            AllGood(c, before + s.lines) <==> AllGood(c, before) && !joins
  {
    hide GoodAt, Written, AvoidsGenesis;
    var file := before + s.lines;
    var joins := before != [] && c.parse(before[|before| - 1]).value.instance == s.instance;
    NonEmpty(c, s);
    forall i: nat | i < |before|
      ensures GoodAt(c, file, i) <==> GoodAt(c, before, i)
    {
      GoodInPrefix(c, before, s.lines, i);
    }
    forall i: nat | |before| <= i < |file|
      ensures GoodAt(c, file, i) == (i > |before| || !joins)
    {
      LineOfRun(c, before, s, i - |before|);
    }
    assert GoodAt(c, file, |before|) == !joins;
  }

  lemma {:induction false} NonEmpty(c: Codec, s: Segment)
    requires Written(c, s)
    ensures s.lines != []
  {
  }

  /** The runs in a file chain exactly when no two neighbours carry the same instance. */
  lemma {:induction false} GoodIffAlternates(c: Codec, segments: seq<Segment>, n: nat)
    requires n <= |segments| && AllWritten(c, segments) && AvoidsGenesis(c)
    ensures AllGood(c, AllLines(segments, n)) <==> Alternates(segments, n)
  {
    hide AllGood, AvoidsGenesis, Written;
    if n == 0 {
      NothingBad(c);
    } else {
      GoodIffAlternates(c, segments, n - 1);
      assert Written(c, segments[n - 1]);
      if n > 1 {
        LastLine(c, segments, n - 1);
        GoodWithRun(c, AllLines(segments, n - 1), segments[n - 1]);
        assert Alternates(segments, n) <==> Alternates(segments, n - 1) && segments[n - 2].instance != segments[n - 1].instance;
      } else {
        GoodWithRun(c, [], segments[0]);
        NothingBad(c);
      }
    }
  }

  lemma {:induction false} NothingBad(c: Codec)
    ensures AllGood(c, [])
  {
  }

  // ---- the checker's answer -------------------------------------------------------------------------

  ghost predicate Distinct(segments: seq<Segment>) {
    forall j, k :: 0 <= j < k < |segments| ==> segments[j].instance != segments[k].instance
  }

  lemma {:induction false} LinesProper(c: Codec, segments: seq<Segment>, n: nat)
    requires n <= |segments| && AllWritten(c, segments)
    ensures AllProper(AllLines(segments, n))
  {
    if n > 0 {
      LinesProper(c, segments, n - 1);
      assert Written(c, segments[n - 1]);
    }
  }

  /** What the first n lines of a file record does not depend on the lines after them. */
  lemma {:induction false} InstancesPrefix(c: Codec, a: seq<string>, b: seq<string>, n: nat)
    requires n <= |a|
    ensures Instances(c, a + b, n) == Instances(c, a, n)
  {
    hide SegmentLength;
    if n > 0 {
      InstancesPrefix(c, a, b, n - 1);
      GoodInPrefix(c, a, b, n - 1);
    }
  }

  lemma {:induction false} InstancesWithRun(c: Codec, before: seq<string>, s: Segment, j: nat)
    requires Written(c, s) && j <= |s.lines| && AvoidsGenesis(c)
    requires before != [] ==> c.parse(before[|before| - 1]).Some? && c.parse(before[|before| - 1]).value.instance != s.instance
    ensures Instances(c, before + s.lines, |before| + j)
            == if j == 0 then Instances(c, before, |before|)
               else Instances(c, before, |before|)[s.instance := InstanceState(Tip(c, s.lines[..j]), j)]
  {
    hide SegmentLength, GoodAt, AvoidsGenesis, Instances, Written;
    if j == 0 {
      InstancesPrefix(c, before, s.lines, |before|);
    } else {
      InstancesWithRun(c, before, s, j - 1);
      LineOfRun(c, before, s, j - 1);
      LineLinks(c, s, j - 1);
      var file := before + s.lines;
      assert file[|before| + j - 1] == s.lines[j - 1] && s.lines[..j][j - 1] == s.lines[j - 1];
      InstancesNext(c, file, |before| + j - 1);
    }
  }

  lemma {:induction false} InstancesNext(c: Codec, recs: seq<string>, n: nat)
    requires n < |recs| && c.parse(recs[n]).Some?
    ensures Instances(c, recs, n + 1)
            == Instances(c, recs, n)[c.parse(recs[n]).value.instance :=
                                       InstanceState(c.hash(recs[n]), SegmentLength(c, recs, n))]
  {
  }

  /** Each writer's own head and count. */
  function Heads(c: Codec, segments: seq<Segment>, n: nat): map<string, InstanceState>
    requires n <= |segments|
  {
    if n == 0 then map[]
    else
      var s := segments[n - 1];
      Heads(c, segments, n - 1)[s.instance := InstanceState(Tip(c, s.lines), |s.lines|)]
  }

  lemma {:induction false} HeadsOf(c: Codec, segments: seq<Segment>, n: nat, k: nat)
    requires k < n <= |segments| && Distinct(segments)
    ensures segments[k].instance in Heads(c, segments, n)
    ensures Heads(c, segments, n)[segments[k].instance] == InstanceState(Tip(c, segments[k].lines), |segments[k].lines|)
  {
    if k < n - 1 {
      HeadsOf(c, segments, n - 1, k);
    }
  }

  lemma {:induction false} InstancesAreHeads(c: Codec, segments: seq<Segment>, n: nat)
    requires n <= |segments| && AllWritten(c, segments) && Distinct(segments) && AvoidsGenesis(c)
    ensures Instances(c, AllLines(segments, n), |AllLines(segments, n)|) == Heads(c, segments, n)
  {
    hide AvoidsGenesis, SegmentLength, Written;
    if n > 0 {
      InstancesAreHeads(c, segments, n - 1);
      var before, s := AllLines(segments, n - 1), segments[n - 1];
      assert Written(c, s);
      NonEmpty(c, s);
      if n > 1 {
        LastLine(c, segments, n - 1);
      }
      InstancesWithRun(c, before, s, |s.lines|);
      assert s.lines[..|s.lines|] == s.lines;
    }
  }

  /**
   A file that accepted every record of one or more runs with distinct instances verifies, with every
   writer's own head and count - unless a record is too long for the scanner, which is then reported as a
   read error and never as tampering.
   */
  lemma {:induction false} FileVerifies(c: Codec, segments: seq<Segment>)
    requires AllWritten(c, segments) && Distinct(segments) && AvoidsGenesis(c)
    ensures var file := AllLines(segments, |segments|);
            Checked(c, Unlines(file))
            == if AllShort(file) then Verdict(true, |file|, 0, Intact, Heads(c, segments, |segments|)) else ScanFailed
  {
    hide Scan, Records, GoodAt, AvoidsGenesis, Instances, Heads, Written, FirstBad;
    var file := AllLines(segments, |segments|);
    LinesProper(c, segments, |segments|);
    ScanUnlines(file);
    var n := ShortPrefix(file);
    assert n == |file| ==> file[..n] == file;
    assert n < |file| ==> !AllShort(file);
    RecordsOfProper(file[..n]);
    GoodIffAlternates(c, segments, |segments|);
    assert file == file[..n] + file[n..];
    forall i: nat | i < n
      ensures GoodAt(c, file[..n], i)
    {
      GoodInPrefix(c, file[..n], file[n..], i);
    }
    FirstBadIs(c, file[..n], n);
    InstancesAreHeads(c, segments, |segments|);
  }

  lemma {:induction false} CheckedShort(c: Codec, file: seq<string>)
    requires AllProper(file) && AllShort(file)
    ensures var k := FirstBad(c, file, 0);
            Checked(c, Unlines(file)) == if k == |file| then Verdict(true, k, 0, Intact, Instances(c, file, k))
            else Verdict(false, k + 1, k + 1, if c.parse(file[k]).None? then Unparseable else Mismatch, Instances(c, file, k))
  {
    hide Scan, Records, FirstBad, Instances;
    ScanUnlines(file);
    RecordsOfProper(file);
    assert file[..|file|] == file;
  }

  /** A second run under the same instance, right after the first, is reported as a break at its first record. */
  lemma {:induction false} RestartUnderSameInstanceBreaks(c: Codec, a: Segment, b: Segment)
    requires Written(c, a) && Written(c, b) && a.instance == b.instance && AvoidsGenesis(c)
    requires AllShort(a.lines + b.lines)
    ensures var out := Checked(c, Unlines(a.lines + b.lines));
            out.Verdict? && !out.ok && out.brokenAt == |a.lines| + 1 && out.reason == Mismatch
  {
    var file := a.lines + b.lines;
    assert AllProper(file);
    hide *;
    CheckedShort(c, file);
    NonEmpty(c, a);
    NonEmpty(c, b);
    LineLinks(c, a, |a.lines| - 1);
    LineLinks(c, b, 0);
    LineOfRun(c, a.lines, b, 0);
    assert file[|a.lines|] == b.lines[0];
    forall i: nat | i < |a.lines|
      ensures GoodAt(c, file, i)
    {
      GoodInPrefix(c, a.lines, b.lines, i);
    }
    FirstBadIs(c, file, |a.lines|);
  }
}
