/** The single audit writer: chain link, write-ahead log (WAL), sinks and the truncate rule. */
module AuditWriter {
  import opened Options
  import opened AuditScan
  import opened AuditChain

  /** A failed append may leave any prefix of the line and its newline behind. */
  datatype Append = Append(ok: bool, kept: nat)

  datatype SinkResult = SinkResult(required: bool, ok: bool)

  /** One queued record, and what the disk and the sinks do with it. */
  datatype Entry = Entry(body: string, append: Append, sinks: seq<SinkResult>, truncates: bool)

  /** The writer, with the lines it emitted and whether each one's append succeeded. */
  datatype State = State(
    prevHash: string, pending: nat, count: nat, headHash: string, headCount: nat, wal: string,
    lines: seq<string>, durable: seq<bool>)

  function Start(wal: string): State {
    State(GENESIS, 0, 0, GENESIS, 0, wal, [], [])
  }

  predicate Refused(e: Entry) {
    exists j :: 0 <= j < |e.sinks| && e.sinks[j].required && !e.sinks[j].ok
  }

  function Appended(line: string, a: Append): string {
    if a.ok || a.kept > |line| then line + "\n" else line[..a.kept]
  }

  /** The line the next record becomes, if it can be serialized. */
  function NextLine(c: Codec, instance: string, st: State, e: Entry): Option<string> {
    c.render(Link(instance, st.prevHash), e.body)
  }

  /** One turn of the writer's loop with a line to write. */
  function Wrote(c: Codec, st: State, e: Entry, line: string): State {
    var hash, pending, wal := c.hash(line), st.pending + 1, st.wal + Appended(line, e.append);
    var reset := !Refused(e) && pending == 1;
    State(
      hash, if reset then 0 else pending,
      if e.append.ok then st.count + 1 else st.count,
      if e.append.ok then hash else st.headHash,
      if e.append.ok then st.count + 1 else st.headCount,
      if reset && e.truncates then "" else wal,
      st.lines + [line], st.durable + [e.append.ok])
  }

  function Step(c: Codec, instance: string, st: State, e: Entry): State {
    match NextLine(c, instance, st, e)
    case None => st
    case Some(line) => Wrote(c, st, e, line)
  }

  function Run(c: Codec, instance: string, wal: string, entries: seq<Entry>, n: nat): State
    requires n <= |entries|
  {
    if n == 0 then Start(wal) else Step(c, instance, Run(c, instance, wal, entries, n - 1), entries[n - 1])
  }

  // ---- the chain ------------------------------------------------------------------------------------

  ghost predicate Chained(c: Codec, instance: string, st: State) {
    && Linked(c, instance, st.lines) && AllProper(st.lines) && st.prevHash == Tip(c, st.lines)
    && |st.durable| == |st.lines|
  }

  /** Every run writes one chain of proper lines, whatever the disk and the sinks do. */
  lemma {:induction false} RunIsChained(c: Codec, instance: string, wal: string, entries: seq<Entry>, n: nat)
    requires Lawful(c) && n <= |entries|
    ensures Chained(c, instance, Run(c, instance, wal, entries, n))
  {
    if n > 0 {
      RunIsChained(c, instance, wal, entries, n - 1);
      var st, e := Run(c, instance, wal, entries, n - 1), entries[n - 1];
      var line := NextLine(c, instance, st, e);
      if line.Some? {
        LinkedExtend(c, instance, st.lines, line.value);
      }
    }
  }

  /** The chain that these bodies make, in order; a body that cannot be serialized is skipped. */
  function ChainOf(c: Codec, instance: string, bodies: seq<string>): seq<string> {
    if bodies == [] then []
    else
      var before := ChainOf(c, instance, bodies[..|bodies| - 1]);
      match c.render(Link(instance, Tip(c, before)), bodies[|bodies| - 1])
      case None => before
      case Some(line) => before + [line]
  }

  function Bodies(entries: seq<Entry>, n: nat): seq<string>
    requires n <= |entries|
  {
    if n == 0 then [] else Bodies(entries, n - 1) + [entries[n - 1].body]
  }

  /** Whatever the disk and the sinks do, the lines written are the chain of all the queued bodies. */
  lemma {:induction false} RunWritesBodies(c: Codec, instance: string, wal: string, entries: seq<Entry>, n: nat)
    requires Lawful(c) && n <= |entries|
    ensures Run(c, instance, wal, entries, n).lines == ChainOf(c, instance, Bodies(entries, n))
  {
    if n > 0 {
      RunWritesBodies(c, instance, wal, entries, n - 1);
      RunIsChained(c, instance, wal, entries, n - 1);
      var bodies := Bodies(entries, n);
      assert bodies[..|bodies| - 1] == Bodies(entries, n - 1);
    }
  }

  /** How many appends succeeded. */
  function Successes(durable: seq<bool>): nat {
    if durable == [] then 0
    else Successes(durable[..|durable| - 1]) + if durable[|durable| - 1] then 1 else 0
  }

  /** One past the last append that succeeded. */
  function LastSuccess(durable: seq<bool>): nat {
    if durable == [] then 0
    else if durable[|durable| - 1] then |durable|
    else LastSuccess(durable[..|durable| - 1])
  }

  ghost predicate NoGap(durable: seq<bool>) {
    forall i :: 0 <= i < LastSuccess(durable) && i < |durable| ==> durable[i]
  }

  lemma {:induction false} SuccessesCount(durable: seq<bool>)
    ensures Successes(durable) <= LastSuccess(durable) <= |durable|
    ensures Successes(durable) == LastSuccess(durable) <==> NoGap(durable)
    ensures Successes(durable) == |durable| <==> forall i :: 0 <= i < |durable| ==> durable[i]
  {
    if durable != [] {
      var front := durable[..|durable| - 1];
      SuccessesCount(front);
      assert forall i :: 0 <= i < |front| ==> front[i] == durable[i];
    }
  }

  /** The published head: the hash of the last durable line, and the number of durable lines. */
  ghost predicate Published(c: Codec, st: State) {
    && |st.durable| == |st.lines| && LastSuccess(st.durable) <= |st.lines|
    && st.count == st.headCount == Successes(st.durable)
    && st.headHash == Tip(c, st.lines[..LastSuccess(st.durable)])
  }

  lemma {:induction false} RunPublishes(c: Codec, instance: string, wal: string, entries: seq<Entry>, n: nat)
    requires n <= |entries|
    ensures Published(c, Run(c, instance, wal, entries, n))
  {
    if n > 0 {
      RunPublishes(c, instance, wal, entries, n - 1);
      var st, now := Run(c, instance, wal, entries, n - 1), Run(c, instance, wal, entries, n);
      if now != st {
        assert now.durable[..|now.durable| - 1] == st.durable;
        SuccessesCount(st.durable);
        SuccessesCount(now.durable);
        assert now.lines[..LastSuccess(st.durable)] == st.lines[..LastSuccess(st.durable)];
      }
    }
  }

  /**
   The published head names the hash at its own position exactly when no append failed before one that
   succeeded - or two of the run's own lines collide. After such a failure the count lags behind for good.
   */
  lemma {:induction false} HeadIsPositionedIff(c: Codec, instance: string, wal: string, entries: seq<Entry>, n: nat)
    requires Lawful(c) && AvoidsGenesis(c) && n <= |entries|
    ensures var st := Run(c, instance, wal, entries, n);
            && st.headCount <= |st.lines|
            && (NoGap(st.durable) ==> st.headHash == Tip(c, st.lines[..st.headCount]))
            && (st.headHash == Tip(c, st.lines[..st.headCount]) ==> NoGap(st.durable) || Collide(c, st.lines, st.lines))
  {
    hide Linked, AvoidsGenesis, Collide, Lawful, Run, NoGap, AllProper;
    RunIsChained(c, instance, wal, entries, n);
    RunPublishes(c, instance, wal, entries, n);
    var st := Run(c, instance, wal, entries, n);
    SuccessesCount(st.durable);
    if st.headCount < LastSuccess(st.durable) {
      TipsDiffer(c, instance, st.lines, st.headCount, LastSuccess(st.durable));
    }
  }

  /** The smallest lag: a failed append, then one that succeeds. The count says one, the hash is the second line's. */
  lemma {:induction false} LaggingHead(c: Codec, instance: string, first: string, second: string)
    requires Lawful(c) && c.render(Link(instance, GENESIS), first).Some?
    requires c.render(Link(instance, c.hash(c.render(Link(instance, GENESIS), first).value)), second).Some?
    ensures var entries := [Entry(first, Append(false, 0), [], true), Entry(second, Append(true, 0), [], true)];
            var st := Run(c, instance, "", entries, 2);
            |st.lines| == 2 && st.headCount == 1 && st.headHash == c.hash(st.lines[1]) && !NoGap(st.durable)
  {
    var a, b := Entry(first, Append(false, 0), [], true), Entry(second, Append(true, 0), [], true);
    var entries := [a, b];
    var one := Step(c, instance, Start(""), a);
    assert Run(c, instance, "", entries, 0) == Start("") && Run(c, instance, "", entries, 1) == one;
    assert Run(c, instance, "", entries, 2) == Step(c, instance, one, b);
    var st := Step(c, instance, one, b);
    assert st.durable == [false, true] && LastSuccess(st.durable) == 2;
    assert !st.durable[0];
  }

  /** With no failed append, an anchor taken from a run binds history, up to a collision of the lines at hand. */
  lemma {:induction false} RunAnchorBindsHistory(c: Codec, instance: string, wal: string, entries: seq<Entry>, n: nat,
                                                 recs: seq<string>, i: nat)
    requires Lawful(c) && n <= |entries|
    requires var st := Run(c, instance, wal, entries, n);
             && (forall k :: 0 <= k < |st.durable| ==> st.durable[k])
             && Reaches(c, recs, i, instance, st.headCount) && c.hash(recs[i]) == st.headHash
    ensures var st := Run(c, instance, wal, entries, n);
            var from := i + 1 - |st.lines|;
            && st.headCount == |st.lines| && 0 < |st.lines| <= i + 1 <= |recs|
            && (|st.lines| <= i ==> !Continues(c, recs, from))
            && (recs[from..i + 1] == st.lines || CollideInPlace(c, recs[from..i + 1], st.lines))
  {
    hide Linked, CollideInPlace, Lawful, Run, Reaches, AllProper, Continues;
    RunIsChained(c, instance, wal, entries, n);
    RunPublishes(c, instance, wal, entries, n);
    var st := Run(c, instance, wal, entries, n);
    SuccessesCount(st.durable);
    assert st.lines[..|st.lines|] == st.lines;
    AnchorBindsHistory(c, instance, st.lines, |st.lines|, recs, i);
  }

  // ---- the write-ahead log --------------------------------------------------------------------------

  /** What entries i to n put into the log. */
  function AppendsBetween(c: Codec, instance: string, wal: string, entries: seq<Entry>, i: nat, n: nat): string
    requires i <= n <= |entries|
  {
    if i == n then ""
    else
      var line := NextLine(c, instance, Run(c, instance, wal, entries, n - 1), entries[n - 1]);
      AppendsBetween(c, instance, wal, entries, i, n - 1)
      + if line.Some? then Appended(line.value, entries[n - 1].append) else ""
  }

  ghost predicate RefusedAt(c: Codec, instance: string, wal: string, entries: seq<Entry>, i: nat) {
    && i < |entries| && NextLine(c, instance, Run(c, instance, wal, entries, i), entries[i]).Some?
    && exists j :: 0 <= j < |entries[i].sinks| && entries[i].sinks[j].required && !entries[i].sinks[j].ok
  }

  /** From a refused record on, the log is never cut again: it is what it was, and everything appended since. */
  lemma {:induction false} NothingDropped(c: Codec, instance: string, wal: string, entries: seq<Entry>, i: nat, n: nat)
    requires RefusedAt(c, instance, wal, entries, i) && i < n <= |entries|
    ensures var st := Run(c, instance, wal, entries, n);
            && st.pending > 0
            && st.wal == Run(c, instance, wal, entries, i).wal + AppendsBetween(c, instance, wal, entries, i, n)
  {
    var first := Run(c, instance, wal, entries, i).wal;
    var st, e := Run(c, instance, wal, entries, n - 1), entries[n - 1];
    var line := NextLine(c, instance, st, e);
    if n == i + 1 {
      assert AppendsBetween(c, instance, wal, entries, i, i) == "";
      assert AppendsBetween(c, instance, wal, entries, i, n) == Appended(line.value, e.append);
    } else {
      NothingDropped(c, instance, wal, entries, i, n - 1);
      var before := AppendsBetween(c, instance, wal, entries, i, n - 1);
      if line.Some? {
        assert first + (before + Appended(line.value, e.append)) == first + before + Appended(line.value, e.append);
      } else {
        assert before + "" == before;
      }
    }
  }

  /** A failed append that left nothing, or everything, behind. */
  predicate Whole(line: string, a: Append) {
    a.ok || a.kept == 0 || a.kept > |line|
  }

  /** No append of the run was torn, and every line fits the scanner. */
  ghost predicate Clean(c: Codec, instance: string, wal: string, entries: seq<Entry>, n: nat) {
    n <= |entries| && forall k: nat :: k < n ==> CleanAt(c, instance, wal, entries, k)
  }

  ghost predicate CleanAt(c: Codec, instance: string, wal: string, entries: seq<Entry>, k: nat) {
    k < |entries| ==>
      var line := NextLine(c, instance, Run(c, instance, wal, entries, k), entries[k]);
      line.Some? ==> Whole(line.value, entries[k].append) && Short(line.value)
  }

  predicate Readable(s: string) {
    Aligned(s) && !Scan(s).tooLong
  }

  lemma {:induction false} AppendedReads(s: string, line: string, a: Append)
    requires Readable(s) && Proper(line) && Short(line) && Whole(line, a)
    ensures Readable(s + Appended(line, a))
    ensures Records(Scan(s + Appended(line, a)).tokens)
            == Records(Scan(s).tokens) + if a.ok || a.kept > |line| then [line] else []
  {
    hide Scan, Records;
    var more := Appended(line, a);
    if a.ok || a.kept > |line| {
      assert s + more == s + line + "\n";
      AppendReadsBackIff(s, line);
      ScanConcat(s, more);
      assert more == line + "\n" + "";
      ScanLine(line, "");
      ScanEmpty();
    } else {
      assert s + more == s;
      assert Records(Scan(s).tokens) + [] == Records(Scan(s).tokens);
    }
  }

  lemma {:induction false} CleanRunReads(c: Codec, instance: string, wal: string, entries: seq<Entry>, n: nat)
    requires Lawful(c) && Readable(wal) && Clean(c, instance, wal, entries, n)
    ensures Readable(Run(c, instance, wal, entries, n).wal)
  {
    hide Readable, Refused, Whole, Appended;
    if n > 0 {
      CleanRunReads(c, instance, wal, entries, n - 1);
      var st, e := Run(c, instance, wal, entries, n - 1), entries[n - 1];
      var line := NextLine(c, instance, st, e);
      assert CleanAt(c, instance, wal, entries, n - 1);
      EmptyReads();
      if line.Some? {
        AppendedReads(st.wal, line.value, e.append);
      }
    }
  }

  lemma {:induction false} EmptyReads()
    ensures Readable("")
  {
  }

  /** The lines that entries i to n left in the log. */
  function Survivors(c: Codec, instance: string, wal: string, entries: seq<Entry>, i: nat, n: nat): seq<string>
    requires i <= n <= |entries|
  {
    if i == n then []
    else
      var line, a := NextLine(c, instance, Run(c, instance, wal, entries, n - 1), entries[n - 1]), entries[n - 1].append;
      Survivors(c, instance, wal, entries, i, n - 1)
      + if line.Some? && (a.ok || a.kept > |line.value|) then [line.value] else []
  }

  /**
   A record that was appended and that a required sink refused is still replayed, in its place, however many
   records succeed after it: the replay is what it was before it, then every line left since, in order.
   */
  lemma {:induction false} RefusedAreReplayed(c: Codec, instance: string, wal: string, entries: seq<Entry>, i: nat,
                                             n: nat)
    requires Lawful(c) && Readable(wal) && Clean(c, instance, wal, entries, n)
    requires RefusedAt(c, instance, wal, entries, i) && i < n
    ensures Records(Scan(Run(c, instance, wal, entries, n).wal).tokens)
            == Records(Scan(Run(c, instance, wal, entries, i).wal).tokens) + Survivors(c, instance, wal, entries, i, n)
  {
    hide Readable, Refused, Whole, Scan, Records, Appended, Lawful;
    CleanRunReads(c, instance, wal, entries, n - 1);
    var st, e := Run(c, instance, wal, entries, n - 1), entries[n - 1];
    var line := NextLine(c, instance, st, e);
    assert CleanAt(c, instance, wal, entries, n - 1);
    NoCutAfter(c, instance, wal, entries, i, n);
    var old0 := Records(Scan(Run(c, instance, wal, entries, i).wal).tokens);
    if n > i + 1 {
      RefusedAreReplayed(c, instance, wal, entries, i, n - 1);
    } else {
      assert Survivors(c, instance, wal, entries, i, i) == [];
      assert old0 + [] == old0;
    }
    var kept := Survivors(c, instance, wal, entries, i, n - 1);
    if line.Some? {
      ProperNext(c, instance, st, e);
      AppendedReads(st.wal, line.value, e.append);
      if e.append.ok || e.append.kept > |line.value| {
        assert old0 + kept + [line.value] == old0 + (kept + [line.value]);
      } else {
        assert old0 + kept + [] == old0 + kept && kept + [] == kept;
      }
    } else {
      assert kept + [] == kept;
    }
  }

  lemma {:induction false} ProperNext(c: Codec, instance: string, st: State, e: Entry)
    requires Lawful(c) && NextLine(c, instance, st, e).Some?
    ensures Proper(NextLine(c, instance, st, e).value)
  {
  }

  lemma {:induction false} NoCutAfter(c: Codec, instance: string, wal: string, entries: seq<Entry>, i: nat, n: nat)
    requires RefusedAt(c, instance, wal, entries, i) && i < n <= |entries|
    ensures var st, e := Run(c, instance, wal, entries, n - 1), entries[n - 1];
            var line := NextLine(c, instance, st, e);
            Run(c, instance, wal, entries, n).wal == if line.Some? then st.wal + Appended(line.value, e.append) else st.wal
  {
    hide Appended;
    if n > i + 1 {
      NothingDropped(c, instance, wal, entries, i, n - 1);
    }
  }

  // ---- one record's replay, whatever happens to the others -------------------------------------------

  /**
   A record that was appended and refused stays in the log for good, and is replayed as a record of its own -
   after what was readable before it, and before whatever came later - exactly when the log ended at a line
   boundary when it was appended.
   */
  lemma {:induction false} RefusedReplaysIff(c: Codec, instance: string, wal: string, entries: seq<Entry>, i: nat,
                                             n: nat)
    requires Lawful(c) && RefusedAt(c, instance, wal, entries, i) && i < n <= |entries| && entries[i].append.ok
    requires var st := Run(c, instance, wal, entries, i);
             !Scan(st.wal).tooLong && Short(NextLine(c, instance, st, entries[i]).value)
    ensures var st := Run(c, instance, wal, entries, i);
            var line := NextLine(c, instance, st, entries[i]).value;
            var later := AppendsBetween(c, instance, wal, entries, i + 1, n);
            var alone := Records(Scan(st.wal).tokens) + [line] + Records(Scan(later).tokens);
            Records(Scan(Run(c, instance, wal, entries, n).wal).tokens) == alone <==> Aligned(st.wal)
  {
    hide Scan, Records, Lawful, Refused;
    var st := Run(c, instance, wal, entries, i);
    var line := NextLine(c, instance, st, entries[i]).value;
    var later := AppendsBetween(c, instance, wal, entries, i + 1, n);
    ProperNext(c, instance, st, entries[i]);
    NothingDropped(c, instance, wal, entries, i, n);
    AppendsSplit(c, instance, wal, entries, i, n);
    assert Run(c, instance, wal, entries, n).wal == st.wal + line + "\n" + later;
    AppendReadsThroughIff(st.wal, line, later);
  }

  /** The appends from i on begin with entry i's. */
  lemma {:induction false} AppendsSplit(c: Codec, instance: string, wal: string, entries: seq<Entry>, i: nat, n: nat)
    requires i < n <= |entries|
    ensures var line := NextLine(c, instance, Run(c, instance, wal, entries, i), entries[i]);
            AppendsBetween(c, instance, wal, entries, i, n)
            == (if line.Some? then Appended(line.value, entries[i].append) else "")
               + AppendsBetween(c, instance, wal, entries, i + 1, n)
  {
    hide Appended, Run, NextLine;
    var line := NextLine(c, instance, Run(c, instance, wal, entries, i), entries[i]);
    var first := if line.Some? then Appended(line.value, entries[i].append) else "";
    if n == i + 1 {
      assert AppendsBetween(c, instance, wal, entries, i, i) == "";
      assert "" + first == first && first + "" == first;
    } else {
      AppendsSplit(c, instance, wal, entries, i, n - 1);
      var last := NextLine(c, instance, Run(c, instance, wal, entries, n - 1), entries[n - 1]);
      var end := if last.Some? then Appended(last.value, entries[n - 1].append) else "";
      var mid := AppendsBetween(c, instance, wal, entries, i + 1, n - 1);
      assert first + mid + end == first + (mid + end);
    }
  }

  /**
   The smallest fusion: a torn append leaves one character, and the refused record after it is replayed behind
   that.
   */
  lemma {:induction false} TornThenRefused(c: Codec, instance: string, first: string, second: string)
    requires Lawful(c) && c.render(Link(instance, GENESIS), first).Some?
    requires c.render(Link(instance, c.hash(c.render(Link(instance, GENESIS), first).value)), second).Some?
    requires Short("x" + c.render(Link(instance, c.hash(c.render(Link(instance, GENESIS), first).value)), second).value)
    ensures var refuses := [SinkResult(true, false)];
            var entries := [Entry(first, Append(false, 1), refuses, true), Entry(second, Append(true, 0), refuses, true)];
            var st := Run(c, instance, "", entries, 2);
            |st.lines| == 2 && st.lines[0] != "" && Records(Scan(st.wal).tokens) == [st.lines[0][..1] + st.lines[1]]
  {
    hide Scan, Records;
    var refuses := [SinkResult(true, false)];
    var a, b := Entry(first, Append(false, 1), refuses, true), Entry(second, Append(true, 0), refuses, true);
    var entries := [a, b];
    var one := Step(c, instance, Start(""), a);
    assert refuses[0].required && !refuses[0].ok;
    ProperNext(c, instance, Start(""), a);
    assert Run(c, instance, "", entries, 0) == Start("") && Run(c, instance, "", entries, 1) == one;
    ProperNext(c, instance, one, b);
    var st := Step(c, instance, one, b);
    assert Run(c, instance, "", entries, 2) == st;
    var fused := st.lines[0][..1] + st.lines[1];
    assert st.wal == fused + "\n" + "";
    assert Proper(fused);
    ScanLine(fused, "");
    ScanEmpty();
    assert [fused] + [] == [fused];
    RecordsOne(fused);
  }

  /** Entry k's append left part of its line behind. */
  ghost predicate TornAt(c: Codec, instance: string, wal: string, entries: seq<Entry>, k: nat) {
    k < |entries| &&
      var line := NextLine(c, instance, Run(c, instance, wal, entries, k), entries[k]);
      line.Some? && !Whole(line.value, entries[k].append)
  }

  /** Entry k left nothing in the log. */
  ghost predicate LeftNothing(c: Codec, instance: string, wal: string, entries: seq<Entry>, k: nat) {
    k < |entries| &&
      var line := NextLine(c, instance, Run(c, instance, wal, entries, k), entries[k]);
      line.Some? ==> Appended(line.value, entries[k].append) == ""
  }

  /** The log is off a line boundary only right after a torn append: one further append realigns it. */
  lemma {:induction false} OnlyTornMisaligns(c: Codec, instance: string, wal: string, entries: seq<Entry>, n: nat)
    requires Aligned(wal) && n <= |entries|
    ensures Aligned(Run(c, instance, wal, entries, n).wal)
            || exists k: nat :: k < n && TornAt(c, instance, wal, entries, k)
                 && forall j: nat :: k < j < n ==> LeftNothing(c, instance, wal, entries, j)
  {
    hide Refused;
    if n > 0 {
      OnlyTornMisaligns(c, instance, wal, entries, n - 1);
      var st, e := Run(c, instance, wal, entries, n - 1), entries[n - 1];
      var line := NextLine(c, instance, st, e);
      if !Aligned(Run(c, instance, wal, entries, n).wal) {
        if TornAt(c, instance, wal, entries, n - 1) {
          assert forall j: nat :: n - 1 < j < n ==> LeftNothing(c, instance, wal, entries, j);
        } else {
          assert LeftNothing(c, instance, wal, entries, n - 1);
          assert line.Some? ==> st.wal + "" == st.wal;
          assert !Aligned(st.wal);
          var k: nat :| k < n - 1 && TornAt(c, instance, wal, entries, k)
            && forall j: nat :: k < j < n - 1 ==> LeftNothing(c, instance, wal, entries, j);
          assert forall j: nat :: k < j < n ==> LeftNothing(c, instance, wal, entries, j);
        }
      }
    }
  }

  // ---- a log inherited from an earlier process -------------------------------------------------------

  /** Entry k becomes a line; what the log holds does not matter for that. */
  ghost predicate Writes(c: Codec, instance: string, entries: seq<Entry>, k: nat) {
    k < |entries| && NextLine(c, instance, Run(c, instance, "", entries, k), entries[k]).Some?
  }

  /** Some record before n was refused. */
  ghost predicate RefusedBefore(c: Codec, instance: string, entries: seq<Entry>, n: nat) {
    exists k: nat :: k < n && Writes(c, instance, entries, k) && Refused(entries[k])
  }

  /** Entry k is delivered and the log is truncated after it, with nothing refused before. */
  ghost predicate CutsAt(c: Codec, instance: string, entries: seq<Entry>, k: nat) {
    && Writes(c, instance, entries, k) && !Refused(entries[k]) && entries[k].truncates
    && !RefusedBefore(c, instance, entries, k)
  }

  ghost predicate CutBefore(c: Codec, instance: string, entries: seq<Entry>, n: nat) {
    exists k: nat :: k < n && CutsAt(c, instance, entries, k)
  }

  lemma {:induction false} PendingIffRefused(c: Codec, instance: string, entries: seq<Entry>, n: nat)
    requires n <= |entries|
    ensures Run(c, instance, "", entries, n).pending > 0 <==> RefusedBefore(c, instance, entries, n)
  {
    hide Step, RefusedBefore, Refused;
    if n == 0 {
      NothingBefore(c, instance, entries);
    } else {
      PendingIffRefused(c, instance, entries, n - 1);
      RefusedStep(c, instance, entries, n - 1);
      PendingStep(c, instance, Run(c, instance, "", entries, n - 1), entries[n - 1]);
    }
  }

  lemma {:induction false} PendingStep(c: Codec, instance: string, st: State, e: Entry)
    ensures Step(c, instance, st, e).pending > 0 <==> st.pending > 0 || (NextLine(c, instance, st, e).Some? && Refused(e))
  {
    hide Refused;
  }

  lemma {:induction false} RefusedStep(c: Codec, instance: string, entries: seq<Entry>, n: nat)
    requires n < |entries|
    ensures RefusedBefore(c, instance, entries, n + 1)
            <==> RefusedBefore(c, instance, entries, n) || (Writes(c, instance, entries, n) && Refused(entries[n]))
    ensures CutBefore(c, instance, entries, n + 1) <==> CutBefore(c, instance, entries, n) || CutsAt(c, instance, entries, n)
  {
    hide Refused, Writes, CutsAt;
    if RefusedBefore(c, instance, entries, n) {
      var k: nat :| k < n && Writes(c, instance, entries, k) && Refused(entries[k]);
      assert k < n + 1 && Writes(c, instance, entries, k) && Refused(entries[k]);
    }
    if CutBefore(c, instance, entries, n) {
      var k: nat :| k < n && CutsAt(c, instance, entries, k);
      assert k < n + 1 && CutsAt(c, instance, entries, k);
    }
  }

  /** A run on an inherited log is the run on an empty one, with the inherited log in front until the first cut. */
  lemma {:induction false} InheritedLogInFront(c: Codec, instance: string, wal: string, entries: seq<Entry>, n: nat)
    requires n <= |entries|
    ensures var st := Run(c, instance, "", entries, n);
            Run(c, instance, wal, entries, n) == st.(wal := (if CutBefore(c, instance, entries, n) then "" else wal) + st.wal)
  {
    hide Refused, Appended, RefusedBefore, CutBefore, Step;
    if n == 0 {
      assert wal + "" == wal;
      NothingBefore(c, instance, entries);
    } else {
      InheritedLogInFront(c, instance, wal, entries, n - 1);
      PendingIffRefused(c, instance, entries, n - 1);
      RefusedStep(c, instance, entries, n - 1);
      var st, e := Run(c, instance, "", entries, n - 1), entries[n - 1];
      var kept := if CutBefore(c, instance, entries, n - 1) then "" else wal;
      var line := NextLine(c, instance, st, e);
      assert Run(c, instance, wal, entries, n - 1) == st.(wal := kept + st.wal);
      LogInFront(c, instance, st, e, kept);
      assert "" + "" == "";
    }
  }

  /** One entry, with and without earlier content in front of the log. */
  lemma {:induction false} LogInFront(c: Codec, instance: string, st: State, e: Entry, front: string)
    ensures var cut := NextLine(c, instance, st, e).Some? && !Refused(e) && e.truncates && st.pending == 0;
            var now := Step(c, instance, st, e);
            && (cut ==> now.wal == "")
            && Step(c, instance, st.(wal := front + st.wal), e) == now.(wal := (if cut then "" else front) + now.wal)
  {
    hide Refused, Appended;
    var line := NextLine(c, instance, st, e);
    if line.Some? {
      assert front + st.wal + Appended(line.value, e.append) == front + (st.wal + Appended(line.value, e.append));
    }
  }

  lemma {:induction false} NothingBefore(c: Codec, instance: string, entries: seq<Entry>)
    ensures !CutBefore(c, instance, entries, 0) && !RefusedBefore(c, instance, entries, 0)
  {
  }

  /**
   The truncate rule knows only its own run. Whatever an earlier process left in the log survives a run
   exactly when no record is delivered, with the truncation succeeding, before the first refused one.
   */
  lemma {:induction false} InheritedLogIsKeptIff(c: Codec, instance: string, entries: seq<Entry>, n: nat)
    requires n <= |entries|
    ensures (forall wal :: wal <= Run(c, instance, wal, entries, n).wal) <==> !CutBefore(c, instance, entries, n)
  {
    hide Run, CutBefore;
    var after := Run(c, instance, "", entries, n).wal;
    if CutBefore(c, instance, entries, n) {
      var longer := after + "x";
      InheritedLogInFront(c, instance, longer, entries, n);
      assert "" + after == after;
      assert !(longer <= Run(c, instance, longer, entries, n).wal);
    } else {
      forall wal
        ensures wal <= Run(c, instance, wal, entries, n).wal
      {
        InheritedLogInFront(c, instance, wal, entries, n);
      }
    }
  }

  /** One delivered record is enough: an inherited backlog is gone after it. */
  lemma {:induction false} InheritedLogIsCut(c: Codec, instance: string, wal: string, e: Entry)
    requires NextLine(c, instance, Start(wal), e).Some? && e.truncates
    requires forall j :: 0 <= j < |e.sinks| && e.sinks[j].required ==> e.sinks[j].ok
    ensures Run(c, instance, wal, [e], 1).wal == ""
  {
    assert Run(c, instance, wal, [e], 1) == Step(c, instance, Start(wal), e);
  }

  // ---- the writer itself ----------------------------------------------------------------------------

  class Writer {
    const instance: string
    const codec: Codec
    var prevHash: string
    var pending: nat
    var count: nat
    var headHash: string
    var headCount: nat
    var wal: string
    ghost var lines: seq<string>
    ghost var durable: seq<bool>

    ghost function Now(): State
      reads this
    {
      State(prevHash, pending, count, headHash, headCount, wal, lines, durable)
    }

    constructor (codec: Codec, instance: string, wal: string)
      ensures this.codec == codec && this.instance == instance && Now() == Start(wal)
    {
      this.codec, this.instance, this.wal := codec, instance, wal;
      prevHash, pending, count, headHash, headCount, lines, durable := GENESIS, 0, 0, GENESIS, 0, [], [];
    }

    /**
     Writes one record: link it, log it, publish the head if it is durable, flush it, and cut the log if it was
     alone.
     */
    method Process(e: Entry)
      modifies this
      ensures Now() == Step(codec, instance, old(Now()), e)
    {
      var rendered := codec.render(Link(instance, prevHash), e.body);
      if rendered.None? {
        return;
      }
      var line := rendered.value;
      prevHash := codec.hash(line);
      lines, durable := lines + [line], durable + [e.append.ok];
      wal := wal + Appended(line, e.append);
      pending := pending + 1;
      if e.append.ok {
        count := count + 1;
        headHash, headCount := prevHash, count;
      }
      var flushedAll := true;
      for j := 0 to |e.sinks|
        invariant flushedAll <==> forall k :: 0 <= k < j ==> !(e.sinks[k].required && !e.sinks[k].ok)
      {
        if !e.sinks[j].ok {
          if e.sinks[j].required {
            flushedAll := false;
          }
        }
      }
      if flushedAll && pending == 1 {
        if e.truncates {
          wal := "";
        }
        pending := 0;
      }
    }

    method Loop(queue: seq<Entry>)
      requires Now() == Start(wal)
      modifies this
      ensures Now() == Run(codec, instance, old(wal), queue, |queue|)
    {
      hide Step;
      for i := 0 to |queue|
        invariant Now() == Run(codec, instance, old(wal), queue, i)
      {
        Process(queue[i]);
      }
    }

    /** The buffered records, in order; fails only on a line the scanner cannot hold. */
    method Replay() returns (recs: seq<string>, ok: bool)
      ensures recs == Records(Scan(wal).tokens) && (ok <==> !Scan(wal).tooLong)
    {
      hide Scan;
      var scanned := Scan(wal);
      var tokens := scanned.tokens;
      recs := [];
      assert tokens[..0] == [];
      for k := 0 to |tokens|
        invariant recs == Records(tokens[..k])
      {
        RecordsStep(tokens, k);
        if tokens[k] != "" {
          recs := recs + [tokens[k]];
        }
      }
      assert tokens[..|tokens|] == tokens;
      ok := !scanned.tooLong;
    }
  }
}
