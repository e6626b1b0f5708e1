/**
 The hash chain of the audit log: what it means for lines to be chained, and the two checkers that walk a
 file. The hash and the record serialization are parameters.
 */
module AuditChain {
  import opened Options
  import opened AuditScan

  const GENESIS: string := "sha256:genesis"

  /** The two fields of a record that chain it. */
  datatype Link = Link(instance: string, prevHash: string)

  /** Hashing a line, reading a line's link, and serializing a record (which may fail). */
  datatype Codec = Codec(hash: string -> string, parse: string -> Option<Link>, render: (Link, string) -> Option<string>)

  /** A serialized record is one proper line, and its link is read back from it. */
  ghost predicate Lawful(c: Codec) {
    forall l, body :: c.render(l, body).Some? ==> Proper(c.render(l, body).value) && c.parse(c.render(l, body).value) == Some(l)
  }

  /** No digest is the genesis marker. */
  ghost predicate AvoidsGenesis(c: Codec) {
    forall line :: c.hash(line) != GENESIS
  }

  /** Two different lines, one of each list, have the same hash. */
  ghost predicate Collide(c: Codec, a: seq<string>, b: seq<string>) {
    exists i, j :: 0 <= i < |a| && 0 <= j < |b| && a[i] != b[j] && c.hash(a[i]) == c.hash(b[j])
  }

  /** Two different lines at the same place of the two lists have the same hash. */
  ghost predicate CollideInPlace(c: Codec, a: seq<string>, b: seq<string>) {
    exists k :: 0 <= k < |a| && k < |b| && a[k] != b[k] && c.hash(a[k]) == c.hash(b[k])
  }

  // ---- chains ---------------------------------------------------------------------------------------

  /** The hash the next record of a segment must carry. */
  function Tip(c: Codec, lines: seq<string>): string {
    if lines == [] then GENESIS else c.hash(lines[|lines| - 1])
  }

  /** One writer's records: every one carries the instance and the hash of the line before it. */
  ghost predicate Linked(c: Codec, instance: string, lines: seq<string>) {
    forall i :: 0 <= i < |lines| ==> c.parse(lines[i]) == Some(Link(instance, Tip(c, lines[..i])))
  }

  lemma {:induction false} LinkedPrefix(c: Codec, instance: string, lines: seq<string>, n: nat)
    requires n <= |lines| && Linked(c, instance, lines)
    ensures Linked(c, instance, lines[..n])
  {
    forall i | 0 <= i < n
      ensures c.parse(lines[..n][i]) == Some(Link(instance, Tip(c, lines[..n][..i])))
    {
      assert lines[..n][..i] == lines[..i];
    }
  }

  lemma {:induction false} LinkedExtend(c: Codec, instance: string, lines: seq<string>, line: string)
    requires Linked(c, instance, lines) && c.parse(line) == Some(Link(instance, Tip(c, lines)))
    ensures Linked(c, instance, lines + [line])
  {
    var more := lines + [line];
    forall i | 0 <= i < |more|
      ensures c.parse(more[i]) == Some(Link(instance, Tip(c, more[..i])))
    {
      assert more[..i] == lines[..i];
      assert lines[..|lines|] == lines;
    }
  }

  /** A head and a length determine the whole chain, or two of the lines at the same place collide. */
  lemma {:induction false} TipDetermines(c: Codec, instance: string, a: seq<string>, b: seq<string>)
    requires Linked(c, instance, a) && Linked(c, instance, b) && |a| == |b| && Tip(c, a) == Tip(c, b)
    ensures a == b || CollideInPlace(c, a, b)
  {
    if a != [] {
      var n := |a| - 1;
      if a[n] == b[n] {
        LinkedPrefix(c, instance, a, n);
        LinkedPrefix(c, instance, b, n);
        assert c.parse(a[n]) == Some(Link(instance, Tip(c, a[..n])));
        assert c.parse(b[n]) == Some(Link(instance, Tip(c, b[..n])));
        TipDetermines(c, instance, a[..n], b[..n]);
        assert a == a[..n] + [a[n]] && b == b[..n] + [b[n]];
        if k :| 0 <= k < n && a[..n][k] != b[..n][k] && c.hash(a[..n][k]) == c.hash(b[..n][k]) {
          assert a[k] != b[k] && c.hash(a[k]) == c.hash(b[k]);
        }
      }
    }
  }

  /** No two places of a chain have the same head, or two of its lines collide. */
  lemma {:induction false} TipsDiffer(c: Codec, instance: string, lines: seq<string>, i: nat, j: nat)
    requires Linked(c, instance, lines) && i < j <= |lines| && AvoidsGenesis(c)
    ensures Tip(c, lines[..i]) != Tip(c, lines[..j]) || Collide(c, lines, lines)
  {
    assert lines[..j][j - 1] == lines[j - 1];
    if i > 0 {
      assert lines[..i][i - 1] == lines[i - 1];
      assert c.parse(lines[i - 1]) == Some(Link(instance, Tip(c, lines[..i - 1])));
      assert c.parse(lines[j - 1]) == Some(Link(instance, Tip(c, lines[..j - 1])));
      TipsDiffer(c, instance, lines, i - 1, j - 1);
    }
  }

  // ---- what a file shows ----------------------------------------------------------------------------

  /** Line i goes on with the segment of the line before it. */
  predicate Continues(c: Codec, recs: seq<string>, i: nat) {
    0 < i < |recs| && c.parse(recs[i]).Some? && c.parse(recs[i - 1]).Some?
    && c.parse(recs[i]).value.instance == c.parse(recs[i - 1]).value.instance
  }

  /** The line can be read and carries the hash its place calls for. */
  predicate GoodAt(c: Codec, recs: seq<string>, i: nat) {
    i < |recs| && c.parse(recs[i]).Some?
    && c.parse(recs[i]).value.prevHash == if Continues(c, recs, i) then c.hash(recs[i - 1]) else GENESIS
  }

  /** How many records line i's segment has, up to and including it. */
  function SegmentLength(c: Codec, recs: seq<string>, i: nat): nat {
    if i > 0 && Continues(c, recs, i) then SegmentLength(c, recs, i - 1) + 1 else 1
  }

  function FirstBad(c: Codec, recs: seq<string>, from: nat): (k: nat)
    requires from <= |recs|
    ensures from <= k <= |recs| && (forall i: nat :: from <= i < k ==> GoodAt(c, recs, i))
    ensures k < |recs| ==> !GoodAt(c, recs, k)
    decreases |recs| - from
  {
    if from < |recs| && GoodAt(c, recs, from) then FirstBad(c, recs, from + 1) else from
  }

  lemma {:induction false} FirstBadIs(c: Codec, recs: seq<string>, k: nat)
    requires k <= |recs| && forall i: nat :: i < k ==> GoodAt(c, recs, i)
    ensures FirstBad(c, recs, 0) >= k && (k == |recs| || !GoodAt(c, recs, k) ==> FirstBad(c, recs, 0) == k)
  {
    hide GoodAt;
    var b := FirstBad(c, recs, 0);
  }

  datatype InstanceState = InstanceState(headHash: string, count: nat)

  function Instances(c: Codec, recs: seq<string>, n: nat): map<string, InstanceState>
    requires n <= |recs|
  {
    if n == 0 then map[]
    else
      var before := Instances(c, recs, n - 1);
      if c.parse(recs[n - 1]).Some?
      then before[c.parse(recs[n - 1]).value.instance := InstanceState(c.hash(recs[n - 1]), SegmentLength(c, recs, n - 1))]
      else before
  }

  datatype Reason = Intact | Unparseable | Mismatch

  datatype Outcome =
    | ScanFailed
    | Verdict(ok: bool, records: nat, brokenAt: nat, reason: Reason, instances: map<string, InstanceState>)

  /** What checking a file must answer. */
  function Checked(c: Codec, content: string): Outcome {
    var recs := Records(Scan(content).tokens);
    var k := FirstBad(c, recs, 0);
    if k < |recs| then
      Verdict(false, k + 1, k + 1, if c.parse(recs[k]).None? then Unparseable else Mismatch, Instances(c, recs, k))
    else if Scan(content).tooLong then ScanFailed
    else Verdict(true, |recs|, 0, Intact, Instances(c, recs, k))
  }

  lemma {:induction false} RecordsStep(tokens: seq<string>, k: nat)
    requires k < |tokens|
    ensures var done := Records(tokens[..k]); var recs := Records(tokens);
            && Records(tokens[..k + 1]) == (if tokens[k] == "" then done else done + [tokens[k]])
            && |Records(tokens[..k + 1])| <= |recs| && Records(tokens[..k + 1]) == recs[..|Records(tokens[..k + 1])|]
  {
    assert tokens[..k + 1] == tokens[..k] + [tokens[k]];
    RecordsConcat(tokens[..k], [tokens[k]]);
    assert [tokens[k]][1..] == [];
    assert tokens == tokens[..k + 1] + tokens[k + 1..];
    RecordsConcat(tokens[..k + 1], tokens[k + 1..]);
  }

  /** What the running hash, instance and count stand for after n good lines. */
  ghost predicate Walked(c: Codec, recs: seq<string>, n: nat, prev: string, instance: string, count: nat, first: bool) {
    && n <= |recs| && (forall i: nat :: i < n ==> GoodAt(c, recs, i)) && (first <==> n == 0)
    && (n > 0 ==> c.parse(recs[n - 1]).Some? && instance == c.parse(recs[n - 1]).value.instance)
    && (n > 0 ==> prev == c.hash(recs[n - 1]) && count == SegmentLength(c, recs, n - 1))
  }

  lemma {:induction false} WalkOn(c: Codec, recs: seq<string>, n: nat, prev: string, instance: string, count: nat,
                                  first: bool)
    requires Walked(c, recs, n, prev, instance, count, first) && n < |recs| && c.parse(recs[n]).Some?
    ensures var l := c.parse(recs[n]).value; var starts := first || l.instance != instance;
            && (GoodAt(c, recs, n) <==> l.prevHash == if starts then GENESIS else prev)
            && SegmentLength(c, recs, n) == (if starts then 0 else count) + 1
            && (GoodAt(c, recs, n) ==> Walked(c, recs, n + 1, c.hash(recs[n]), l.instance, SegmentLength(c, recs, n), false))
  {
  }

  lemma {:induction false} GoodBefore(c: Codec, recs: seq<string>, n: nat, prev: string, instance: string,
                                      count: nat, first: bool)
    requires Walked(c, recs, n, prev, instance, count, first)
    ensures n <= |recs| && forall i: nat :: i < n ==> GoodAt(c, recs, i)
  {
  }

  lemma {:induction false} Unreadable(c: Codec, recs: seq<string>, i: nat)
    requires i < |recs| && c.parse(recs[i]).None?
    ensures !GoodAt(c, recs, i)
  {
  }

  lemma {:induction false} WalkFrom(c: Codec, recs: seq<string>)
    ensures Walked(c, recs, 0, GENESIS, "", 0, true) && Records([]) == []
  {
  }

  /** Walks the file once, keeping one running hash, one instance and one count. */
  method Verify(c: Codec, content: string) returns (out: Outcome)
    ensures out == Checked(c, content)
  {
    hide Scan, Records, Walked, GoodAt, SegmentLength, FirstBad;
    var scanned := Scan(content);
    var tokens := scanned.tokens;
    ghost var recs := Records(tokens);
    var n, expectedPrev, curInstance, curCount, first := 0, GENESIS, "", 0, true;
    var instances: map<string, InstanceState> := map[];
    WalkFrom(c, recs);
    assert tokens[..0] == [];
    for k := 0 to |tokens|
      invariant n <= |recs| && Records(tokens[..k]) == recs[..n]
      invariant Walked(c, recs, n, expectedPrev, curInstance, curCount, first)
      invariant instances == Instances(c, recs, n)
    {
      var line := tokens[k];
      RecordsStep(tokens, k);
      if line == "" {
        continue;
      }
      assert recs[..n + 1] == recs[..n] + [line];
      assert recs[n] == line;
      GoodBefore(c, recs, n, expectedPrev, curInstance, curCount, first);
      FirstBadIs(c, recs, n);
      var rec := c.parse(line);
      n := n + 1;
      if rec.None? {
        Unreadable(c, recs, n - 1);
        return Verdict(false, n, n, Unparseable, instances);
      }
      WalkOn(c, recs, n - 1, expectedPrev, curInstance, curCount, first);
      if first || rec.value.instance != curInstance {
        curInstance, expectedPrev, curCount, first := rec.value.instance, GENESIS, 0, false;
      }
      if rec.value.prevHash != expectedPrev {
        return Verdict(false, n, n, Mismatch, instances);
      }
      expectedPrev := c.hash(line);
      curCount := curCount + 1;
      instances := instances[curInstance := InstanceState(expectedPrev, curCount)];
    }
    assert tokens[..|tokens|] == tokens;
    assert n == |recs|;
    GoodBefore(c, recs, n, expectedPrev, curInstance, curCount, first);
    FirstBadIs(c, recs, n);
    out := if scanned.tooLong then ScanFailed else Verdict(true, n, 0, Intact, instances);
  }

  /** In an intact prefix, line i is record number `count` of a segment of this instance. */
  predicate Reaches(c: Codec, recs: seq<string>, i: nat, instance: string, count: int) {
    && i < FirstBad(c, recs, 0) && c.parse(recs[i]).Some? && c.parse(recs[i]).value.instance == instance
    && SegmentLength(c, recs, i) == count
  }

  datatype Position = ReadFailed | NotFound | Found(hash: string)

  /** Walks the file as Verify does, and stops where the instance's segment has this many records. */
  method HeadAtCount(c: Codec, content: string, instance: string, count: int) returns (out: Position)
    ensures var recs := Records(Scan(content).tokens);
            && (out.Found? ==> exists i: nat :: Reaches(c, recs, i, instance, count) && out.hash == c.hash(recs[i])
                                 && forall j: nat :: j < i ==> !Reaches(c, recs, j, instance, count))
            && (!out.Found? ==> forall i: nat :: !Reaches(c, recs, i, instance, count))
            && (out.ReadFailed? ==> FirstBad(c, recs, 0) == |recs|)
            && (!out.Found? && FirstBad(c, recs, 0) == |recs| ==> (out.ReadFailed? <==> Scan(content).tooLong))
  {
    hide Scan, Records, Walked, GoodAt, SegmentLength, FirstBad;
    var scanned := Scan(content);
    var tokens := scanned.tokens;
    ghost var recs := Records(tokens);
    ghost var n := 0;
    var expectedPrev, curInstance, curCount, first := GENESIS, "", 0, true;
    WalkFrom(c, recs);
    assert tokens[..0] == [];
    for k := 0 to |tokens|
      invariant n <= |recs| && Records(tokens[..k]) == recs[..n]
      invariant Walked(c, recs, n, expectedPrev, curInstance, curCount, first)
      invariant forall i: nat :: i < n ==> !Reaches(c, recs, i, instance, count)
    {
      var line := tokens[k];
      RecordsStep(tokens, k);
      if line == "" {
        continue;
      }
      assert recs[..n + 1] == recs[..n] + [line];
      assert recs[n] == line;
      GoodBefore(c, recs, n, expectedPrev, curInstance, curCount, first);
      FirstBadIs(c, recs, n);
      var rec := c.parse(line);
      n := n + 1;
      if rec.None? {
        Unreadable(c, recs, n - 1);
        return NotFound;
      }
      WalkOn(c, recs, n - 1, expectedPrev, curInstance, curCount, first);
      if first || rec.value.instance != curInstance {
        curInstance, expectedPrev, curCount, first := rec.value.instance, GENESIS, 0, false;
      }
      if rec.value.prevHash != expectedPrev {
        return NotFound;
      }
      expectedPrev := c.hash(line);
      curCount := curCount + 1;
      GoodBefore(c, recs, n, expectedPrev, curInstance, curCount, first);
      FirstBadIs(c, recs, n);
      if curInstance == instance && curCount == count {
        assert Reaches(c, recs, n - 1, instance, count);
        return Found(expectedPrev);
      }
    }
    assert tokens[..|tokens|] == tokens;
    assert n == |recs|;
    GoodBefore(c, recs, n, expectedPrev, curInstance, curCount, first);
    FirstBadIs(c, recs, n);
    out := if scanned.tooLong then ReadFailed else NotFound;
  }

  // ---- an anchor binds history ----------------------------------------------------------------------

  ghost predicate SegmentAt(c: Codec, recs: seq<string>, i: nat, m: nat) {
    && 0 < m <= i + 1 <= |recs| && c.parse(recs[i]).Some?
    && Linked(c, c.parse(recs[i]).value.instance, recs[i + 1 - m..i + 1])
    && (m <= i ==> !Continues(c, recs, i + 1 - m))
  }

  lemma {:induction false} SegmentStarts(c: Codec, recs: seq<string>, i: nat)
    requires GoodAt(c, recs, i) && !Continues(c, recs, i)
    ensures SegmentAt(c, recs, i, 1)
  {
    LinkedExtend(c, c.parse(recs[i]).value.instance, [], recs[i]);
    assert [] + [recs[i]] == recs[i..i + 1];
  }

  lemma {:induction false} SegmentGrows(c: Codec, recs: seq<string>, i: nat, m: nat)
    requires GoodAt(c, recs, i) && Continues(c, recs, i) && SegmentAt(c, recs, i - 1, m)
    ensures SegmentAt(c, recs, i, m + 1)
  {
    var before := recs[i - m..i];
    assert before[|before| - 1] == recs[i - 1];
    LinkedExtend(c, c.parse(recs[i]).value.instance, before, recs[i]);
    assert before + [recs[i]] == recs[i - m..i + 1];
  }

  /** In an intact prefix, a segment is a chain from genesis. */
  lemma {:induction false} SegmentIsLinked(c: Codec, recs: seq<string>, i: nat)
    requires i < |recs| && forall j: nat :: j <= i ==> GoodAt(c, recs, j)
    ensures SegmentAt(c, recs, i, SegmentLength(c, recs, i))
  {
    hide SegmentAt, GoodAt;
    assert GoodAt(c, recs, i);
    if Continues(c, recs, i) {
      SegmentIsLinked(c, recs, i - 1);
      SegmentGrows(c, recs, i, SegmentLength(c, recs, i - 1));
    } else {
      SegmentStarts(c, recs, i);
    }
  }

  /**
   An anchor binds history: whatever a file holds, if it shows the anchored hash at the anchored count of
   the instance, then that segment starts with exactly the writer's first `count` records - or one of the
   writer's lines and a different line of the file, at the same place of the segment, have the same hash.
   */
  lemma {:induction false} AnchorBindsHistory(c: Codec, instance: string, written: seq<string>, count: nat,
                                             recs: seq<string>, i: nat)
    requires Linked(c, instance, written) && count <= |written|
    requires Reaches(c, recs, i, instance, count) && c.hash(recs[i]) == Tip(c, written[..count])
    ensures 0 < count <= i + 1 <= |recs| && (count <= i ==> !Continues(c, recs, i + 1 - count))
    ensures recs[i + 1 - count..i + 1] == written[..count] || CollideInPlace(c, recs[i + 1 - count..i + 1], written[..count])
  {
    hide GoodAt, SegmentLength, CollideInPlace;
    assert forall j: nat :: j <= i ==> GoodAt(c, recs, j);
    SegmentIsLinked(c, recs, i);
    var shown := recs[i + 1 - count..i + 1];
    assert shown[|shown| - 1] == recs[i];
    LinkedPrefix(c, instance, written, count);
    TipDetermines(c, instance, shown, written[..count]);
  }
}
