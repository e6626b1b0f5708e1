/**
 Whole runs of heartbeats against one budget rule: the overshoot bound a fleet of data planes obeys, with
 what the ledger forgets when it prunes silent planes.
 */
module FleetBound {
  import opened Ints
  import opened Sums
  import opened Ledger

  /** One accepted heartbeat, as the rule's row sees it. */
  datatype Beat = Beat(dp: string, values: seq<int>, now: int)

  /**
   The row and the clock, with what the control plane does not keep: the largest allowance each plane was
   ever issued, by how much reports overran those, the last report of every plane ever heard, and the spend
   taken off the books by prunes.
   */
  datatype Fleet = Fleet(row: Row, seen: Clock, peak: map<string, int>, overrun: int, paid: map<string, int>, forgotten: int)

  ghost predicate Reportable(vs: seq<int>) {
    forall i :: 0 <= i < |vs| ==> 0 <= vs[i] <= MAX_INT64
  }

  /** A plane's last report, when it had reported `had` before these. */
  function LastReport(had: int, vs: seq<int>): int {
    if vs == [] then had else vs[|vs| - 1]
  }

  function Paid(paid: map<string, int>, dp: string, vs: seq<int>): map<string, int> {
    if vs == [] then paid else paid[dp := vs[|vs| - 1]]
  }

  /** How far a plane's reports go beyond everything it had reported or been allowed so far. */
  ghost function BatchOverrun(had: int, most: int, vs: seq<int>): int {
    if vs == [] then 0
    else
      var front := vs[..|vs| - 1];
      BatchOverrun(had, most, front) + Max(0, vs[|vs| - 1] - Max(LastReport(had, front), most))
  }

  /** The spend that dropping these planes takes off the books. */
  ghost function Dropped(l: Row, dead: set<string>): int {
    SpentTotal(l) - SpentTotal(DropPlanes(l, dead))
  }

  ghost function Step(f: Fleet, b: Beat): Fleet {
    var row := BeatRow(f.row, b.dp, b.values, f.seen, b.now);
    Fleet(row, BeatClock(b.dp, f.seen, b.now),
          f.peak[b.dp := Max(Get(f.peak, b.dp), Get(row.allowance, b.dp))],
          f.overrun + BatchOverrun(Get(f.paid, b.dp), Get(f.peak, b.dp), b.values),
          Paid(f.paid, b.dp, b.values),
          f.forgotten + Dropped(AbsorbValues(f.row, b.dp, b.values), Stale(f.seen[b.dp := b.now], b.now)))
  }

  ghost function Run(rule: Row, seen: Clock, beats: seq<Beat>): Fleet {
    if beats == [] then Fleet(rule, seen, map[], 0, map[], 0)
    else Step(Run(rule, seen, beats[..|beats| - 1]), beats[|beats| - 1])
  }

  predicate FreshRule(rule: Row) {
    ValidRow(rule) && !rule.routingOnly && rule.spent == map[] && rule.allowance == map[]
  }

  /** Counters of one window only grow. */
  ghost predicate Rising(had: int, vs: seq<int>) {
    && (forall i :: 0 <= i < |vs| ==> had <= vs[i])
    && (forall i, j :: 0 <= i < j < |vs| ==> vs[i] <= vs[j])
  }

  ghost predicate Growing(l: Row, dp: string, vs: seq<int>) {
    Rising(Get(l.spent, dp), vs)
  }

  /** No rollover: the whole run lives in one budget window, in which no plane's own counter falls. */
  ghost predicate OneWindow(rule: Row, seen: Clock, beats: seq<Beat>) {
    forall i :: 0 <= i < |beats| ==>
      Reportable(beats[i].values) && Rising(Get(Run(rule, seen, beats[..i]).paid, beats[i].dp), beats[i].values)
  }

  /** What each plane may have spent: its reports, or the largest allowance it ever held. */
  ghost function Claim(paid: map<string, int>, peak: map<string, int>): map<string, int> {
    map d | d in peak :: Max(Get(paid, d), peak[d])
  }

  /** Every plane that spent was granted something, and never more than one grant past its reports. */
  ghost predicate Held(paid: map<string, int>, peak: map<string, int>, grant: int) {
    && paid.Keys <= peak.Keys
    && (forall d :: d in peak ==> 0 <= peak[d] <= Get(paid, d) + grant)
  }

  /** The promised ceiling for a fleet of `n` planes. */
  function Ceiling(limit: int, grant: int, n: nat): int {
    if n == 0 then 0 else limit + Times(grant, n - 1)
  }

  /** The books: what is on record is what was last reported, and nothing else is missing but what prunes dropped. */
  ghost predicate Books(f: Fleet) {
    && ValidRow(f.row) && InRange(f.paid) && 0 <= f.forgotten
    && (forall d :: d in f.row.spent ==> d in f.paid && f.paid[d] == f.row.spent[d])
    && Total(f.paid) <= SpentTotal(f.row) + f.forgotten
  }

  ghost predicate Inv(f: Fleet) {
    && Books(f) && !f.row.routingOnly
    && Held(f.paid, f.peak, f.row.grant)
    && 0 <= f.overrun
    && Total(Claim(f.paid, f.peak)) <= Ceiling(f.row.limit, f.row.grant, |f.peak|) + f.overrun + f.forgotten
  }

  // ---- a heartbeat in three parts -------------------------------------------------------------------

  ghost function Absorbed(f: Fleet, dp: string, vs: seq<int>): Fleet {
    Fleet(AbsorbValues(f.row, dp, vs), f.seen, f.peak[dp := Get(f.peak, dp)],
          f.overrun + BatchOverrun(Get(f.paid, dp), Get(f.peak, dp), vs), Paid(f.paid, dp, vs), f.forgotten)
  }

  ghost function Pruned(f: Fleet, dead: set<string>): Fleet {
    f.(row := DropPlanes(f.row, dead), seen := f.seen - dead, forgotten := f.forgotten + Dropped(f.row, dead))
  }

  ghost function Leased(f: Fleet, now: int, dp: string): Fleet
    requires dp in f.peak
  {
    var row := Granted(f.row, now, f.seen, dp);
    f.(row := row, peak := f.peak[dp := Max(f.peak[dp], Get(row.allowance, dp))])
  }

  /** A heartbeat is: absorb, prune, grant. */
  lemma {:induction false} BeatSplits(f: Fleet, b: Beat)
    ensures var clock := f.seen[b.dp := b.now];
            Step(f, b) == Leased(Pruned(Absorbed(f, b.dp, b.values).(seen := clock), Stale(clock, b.now)), b.now, b.dp)
  {
    hide AbsorbValues, Granted, BatchOverrun, Stale, Dropped, Paid;
    var clock := f.seen[b.dp := b.now];
    var mid := Pruned(Absorbed(f, b.dp, b.values).(seen := clock), Stale(clock, b.now));
    var a := Get(Granted(mid.row, b.now, mid.seen, b.dp).allowance, b.dp);
    assert f.peak[b.dp := Get(f.peak, b.dp)][b.dp := Max(Get(f.peak, b.dp), a)] == f.peak[b.dp := Max(Get(f.peak, b.dp), a)];
  }

  // ---- the absorbing part ---------------------------------------------------------------------------

  /** Absorbing writes the last report, and touches nobody else's spend. */
  lemma {:induction false} AbsorbShape(l: Row, dp: string, vs: seq<int>)
    ensures AbsorbValues(l, dp, vs).spent == Paid(l.spent, dp, vs)
  {
    if vs != [] {
      AbsorbShape(l, dp, vs[..|vs| - 1]);
    }
  }

  lemma {:induction false} RaiseClaim(paid: map<string, int>, peak: map<string, int>, dp: string, v: int)
    requires dp in peak && Get(paid, dp) <= v
    ensures Total(Claim(paid[dp := v], peak))
            == Total(Claim(paid, peak)) + Max(0, v - Max(Get(paid, dp), peak[dp]))
  {
    var before, after := Claim(paid, peak), Claim(paid[dp := v], peak);
    assert after == before[dp := Max(v, peak[dp])];
    TotalUpdate(before, dp, Max(v, peak[dp]));
  }

  /** Reports move the claims by exactly their overrun. */
  lemma {:induction false} AbsorbClaim(paid: map<string, int>, peak: map<string, int>, dp: string, vs: seq<int>)
    requires dp in peak && Rising(Get(paid, dp), vs)
    ensures 0 <= BatchOverrun(Get(paid, dp), peak[dp], vs)
    ensures Total(Claim(Paid(paid, dp, vs), peak)) == Total(Claim(paid, peak)) + BatchOverrun(Get(paid, dp), peak[dp], vs)
  {
    hide Claim;
    if vs != [] {
      var front, v := vs[..|vs| - 1], vs[|vs| - 1];
      AbsorbClaim(paid, peak, dp, front);
      assert Get(Paid(paid, dp, front), dp) == LastReport(Get(paid, dp), front);
      RaiseClaim(Paid(paid, dp, front), peak, dp, v);
      assert Paid(paid, dp, front)[dp := v] == paid[dp := v];
    }
  }

  /** A plane heard for the first time adds an empty claim and widens the ceiling. */
  lemma {:induction false} Admit(paid: map<string, int>, peak: map<string, int>, dp: string, limit: int, grant: int)
    requires Held(paid, peak, grant) && 0 <= grant && 0 <= limit && InRange(paid)
    ensures var wider := peak[dp := Get(peak, dp)];
            && Total(Claim(paid, wider)) == Total(Claim(paid, peak))
            && Ceiling(limit, grant, |peak|) <= Ceiling(limit, grant, |wider|)
            && Held(paid, wider, grant)
  {
    SizeUpdate(peak, dp, Get(peak, dp));
    if dp in peak {
      assert peak[dp := Get(peak, dp)] == peak;
    } else {
      assert Claim(paid, peak[dp := 0]) == Claim(paid, peak)[dp := 0];
      TotalUpdate(Claim(paid, peak), dp, 0);
    }
  }

  /** Absorbing keeps the books, in every window. */
  lemma {:induction false} AbsorbKeepsBooks(f: Fleet, dp: string, vs: seq<int>)
    requires Books(f) && Reportable(vs)
    ensures Books(Absorbed(f, dp, vs))
  {
    hide BatchOverrun, AbsorbValues;
    AbsorbKeepsValid(f.row, dp, vs);
    AbsorbShape(f.row, dp, vs);
    if vs != [] {
      TotalUpdate(f.paid, dp, vs[|vs| - 1]);
      TotalUpdate(f.row.spent, dp, vs[|vs| - 1]);
    }
  }

  /** Absorbing keeps the invariant, with the reporter registered. */
  lemma {:induction false} AbsorbKeepsInv(f: Fleet, dp: string, vs: seq<int>)
    requires Inv(f) && Reportable(vs) && Rising(Get(f.paid, dp), vs)
    ensures Inv(Absorbed(f, dp, vs))
  {
    hide BatchOverrun, Claim, Books;
    assert Books(f) && ValidRow(f.row) && InRange(f.paid) by { BooksMean(f); }
    var wider := f.peak[dp := Get(f.peak, dp)];
    Admit(f.paid, f.peak, dp, f.row.limit, f.row.grant);
    AbsorbClaim(f.paid, wider, dp, vs);
    AbsorbKeepsBooks(f, dp, vs);
    assert Held(Paid(f.paid, dp, vs), wider, f.row.grant);
  }

  lemma {:induction false} BooksMean(f: Fleet)
    requires Books(f)
    ensures ValidRow(f.row) && InRange(f.paid) && 0 <= f.forgotten && Total(f.paid) <= SpentTotal(f.row) + f.forgotten
    ensures forall d :: Get(f.row.spent, d) <= Get(f.paid, d)
  {
  }

  // ---- the pruning part -----------------------------------------------------------------------------

  lemma {:induction false} PruneKeepsBooks(f: Fleet, dead: set<string>)
    requires Books(f)
    ensures Books(Pruned(f, dead)) && 0 <= Dropped(f.row, dead)
  {
    TotalMonotone(f.row.spent - dead, f.row.spent);
  }

  lemma {:induction false} PruneKeepsInv(f: Fleet, dead: set<string>)
    requires Inv(f)
    ensures Inv(Pruned(f, dead))
  {
    hide Books, Total, Dropped;
    PruneKeepsBooks(f, dead);
  }

  // ---- the granting part ----------------------------------------------------------------------------

  lemma {:induction false} SpentWithout(spent: map<string, int>, dp: string)
    ensures Total(spent) == Get(spent, dp) + Total(spent - {dp})
  {
    if dp in spent {
      TotalRemove(spent, dp);
    } else {
      assert spent - {dp} == spent;
    }
  }

  /** Everyone else's claim is their reported spend plus at most one grant each. */
  lemma {:induction false} OthersWithinSlack(paid: map<string, int>, peak: map<string, int>, dp: string, grant: int)
    requires dp in peak && Held(paid, peak, grant) && 0 <= grant
    ensures Total(Claim(paid, peak - {dp})) <= Total(paid) - Get(paid, dp) + Times(grant, |peak| - 1)
  {
    var others := Claim(paid, peak - {dp});
    assert |others| == |peak| - 1 by {
      assert others.Keys == (peak - {dp}).Keys;
      assert |others| == |others.Keys|;
    }
    assert Total(others) <= Total(paid - {dp}) + Times(grant, |others|) by {
      TotalWithinSlack(others, paid - {dp}, grant);
    }
    SpentWithout(paid, dp);
  }

  /** A plane's new peak, over everyone else's spend and one grant each. */
  lemma {:induction false} NewPeak(paid: map<string, int>, peak: map<string, int>, dp: string, grant: int, a: int)
    requires dp in peak && Held(paid, peak, grant) && 0 <= grant && Get(paid, dp) <= a
    ensures Total(Claim(paid, peak[dp := a])) <= a + Total(paid) - Get(paid, dp) + Times(grant, |peak| - 1)
  {
    hide Claim, Total, Held;
    var next := Claim(paid, peak[dp := a]);
    NewClaim(paid, peak, dp, a);
    TotalRemove(next, dp);
    OthersWithinSlack(paid, peak, dp, grant);
  }

  lemma {:induction false} NewClaim(paid: map<string, int>, peak: map<string, int>, dp: string, a: int)
    requires dp in peak && Get(paid, dp) <= a
    ensures var next := Claim(paid, peak[dp := a]);
            dp in next && next[dp] == a && next - {dp} == Claim(paid, peak - {dp})
  {
  }

  /** Raising one plane's peak to an allowance the row had room for keeps the claims under the ceiling. */
  lemma {:induction false} RaisePeak(paid: map<string, int>, peak: map<string, int>, dp: string, limit: int, grant: int,
                                     a: int, room: int, slack: int)
    requires dp in peak && Held(paid, peak, grant) && 0 <= grant && 0 <= slack
    requires a <= Get(paid, dp) + room && (room > 0 ==> Total(paid) + room <= limit + slack) && 0 <= room
    requires Total(Claim(paid, peak)) <= Ceiling(limit, grant, |peak|) + slack
    ensures Total(Claim(paid, peak[dp := Max(peak[dp], a)])) <= Ceiling(limit, grant, |peak|) + slack
  {
    if peak[dp] < a && Get(paid, dp) < a {
      NewPeak(paid, peak, dp, grant, a);
      assert |peak| > 0;
    } else {
      assert Claim(paid, peak[dp := Max(peak[dp], a)]) == Claim(paid, peak);
    }
  }

  /** What is granted fits what the books leave, so it overshoots by no more than what they have forgotten. */
  lemma {:induction false} GrantRoom(f: Fleet, now: int, dp: string)
    requires Books(f)
    ensures var a, h := GrantedAllowance(f.row, now, f.seen, dp), Headroom(f.row, now, f.seen, dp);
            && ValidRow(Granted(f.row, now, f.seen, dp)) && 0 <= h <= f.row.grant && 0 <= a <= Get(f.paid, dp) + h
            && (h > 0 ==> Total(f.paid) + h <= f.row.limit + f.forgotten)
  {
    hide Headroom, Total;
    BooksMean(f);
    GrantFits(f.row, now, f.seen, dp);
    ReservedNotNegative(f.row, now, f.seen, dp);
  }

  lemma {:induction false} ReservedNotNegative(l: Row, now: int, seen: Clock, dp: string)
    ensures 0 <= Outstanding(l, now, seen, dp)
  {
    TotalNonNegative(Reserved(l, now, seen, dp));
  }

  lemma {:induction false} GrantKeepsInv(f: Fleet, now: int, dp: string)
    requires Inv(f) && dp in f.peak
    ensures Inv(Leased(f, now, dp))
  {
    hide Claim, Total, Headroom, GrantedAllowance, ValidRow;
    var a, h := GrantedAllowance(f.row, now, f.seen, dp), Headroom(f.row, now, f.seen, dp);
    GrantRoom(f, now, dp);
    BooksMean(f);
    assert f.row.grant >= 0;
    RaisePeak(f.paid, f.peak, dp, f.row.limit, f.row.grant, a, h, f.overrun + f.forgotten);
    SizeUpdate(f.peak, dp, Max(f.peak[dp], a));
  }

  // ---- runs ---------------------------------------------------------------------------------------

  lemma {:induction false} StepKeepsInv(f: Fleet, b: Beat)
    requires Inv(f) && Reportable(b.values) && Rising(Get(f.paid, b.dp), b.values)
    ensures Inv(Step(f, b))
    ensures Step(f, b).row.limit == f.row.limit && Step(f, b).row.grant == f.row.grant
  {
    hide Inv, Reportable, Rising, Stale;
    var clock := f.seen[b.dp := b.now];
    BeatSplits(f, b);
    AbsorbKeepsInv(f, b.dp, b.values);
    var absorbed := Absorbed(f, b.dp, b.values).(seen := clock);
    SeenIsFree(Absorbed(f, b.dp, b.values), clock);
    PruneKeepsInv(absorbed, Stale(clock, b.now));
    GrantKeepsInv(Pruned(absorbed, Stale(clock, b.now)), b.now, b.dp);
  }

  lemma {:induction false} SeenIsFree(f: Fleet, clock: Clock)
    ensures Inv(f) <==> Inv(f.(seen := clock))
    ensures Books(f) <==> Books(f.(seen := clock))
  {
  }

  lemma {:induction false} OneWindowPrefix(rule: Row, seen: Clock, beats: seq<Beat>, n: nat)
    requires OneWindow(rule, seen, beats) && n <= |beats|
    ensures OneWindow(rule, seen, beats[..n])
  {
    hide Rising, Reportable;
    assert forall i :: 0 <= i < n ==> beats[..n][..i] == beats[..i];
  }

  lemma {:induction false} RunKeepsInv(rule: Row, seen: Clock, beats: seq<Beat>)
    requires FreshRule(rule) && OneWindow(rule, seen, beats)
    ensures Inv(Run(rule, seen, beats))
    ensures Run(rule, seen, beats).row.limit == rule.limit && Run(rule, seen, beats).row.grant == rule.grant
  {
    hide Step;
    if beats == [] {
      assert Claim(map[], map[]) == map[];
    } else {
      hide Inv;
      var n := |beats| - 1;
      OneWindowPrefix(rule, seen, beats, n);
      RunKeepsInv(rule, seen, beats[..n]);
      StepKeepsInv(Run(rule, seen, beats[..n]), beats[n]);
    }
  }

  /**
   The overshoot bound. Whatever the interleaving, however many answers are lost, leases lapse and planes are
   pruned, what the fleet has reported in a window, and its largest-ever allowances beside that, stay within the
   limit, one grant for every plane but one, the amount by which reports overran what had been allowed, and the
   spend that prunes took off the books.
   */
  lemma {:induction false} FleetOvershoot(rule: Row, seen: Clock, beats: seq<Beat>)
    requires FreshRule(rule) && OneWindow(rule, seen, beats) && beats != []
    ensures var f := Run(rule, seen, beats);
            var bound := rule.limit + rule.grant * (|f.peak| - 1) + f.overrun + f.forgotten;
            SpentTotal(f.row) <= Total(f.paid) <= Total(Claim(f.paid, f.peak)) <= bound
  {
    hide *;
    RunKeepsInv(rule, seen, beats);
    LastIsHeard(rule, seen, beats);
    InvBounds(Run(rule, seen, beats));
  }

  lemma {:induction false} LastIsHeard(rule: Row, seen: Clock, beats: seq<Beat>)
    requires beats != []
    ensures |Run(rule, seen, beats).peak| > 0
  {
    hide BeatRow, BeatClock, BatchOverrun, Dropped;
    assert beats[|beats| - 1].dp in Run(rule, seen, beats).peak;
  }

  lemma {:induction false} InvBounds(f: Fleet)
    requires Inv(f) && |f.peak| > 0
    ensures SpentTotal(f.row) <= Total(f.paid) <= Total(Claim(f.paid, f.peak))
    ensures Total(Claim(f.paid, f.peak)) <= f.row.limit + f.row.grant * (|f.peak| - 1) + f.overrun + f.forgotten
  {
    TotalMonotone(f.row.spent, f.paid);
    TotalMonotone(f.paid, Claim(f.paid, f.peak));
    TimesIsProduct(f.row.grant, |f.peak| - 1);
  }

  // ---- what prunes forget ---------------------------------------------------------------------------

  /** No plane with spend on record is stale at this heartbeat. */
  ghost predicate PrunesNoSpend(f: Fleet, b: Beat) {
    forall d :: d in Stale(f.seen[b.dp := b.now], b.now) ==> Get(f.row.spent, d) == 0
  }

  ghost predicate NeverPrunesSpend(rule: Row, seen: Clock, beats: seq<Beat>) {
    forall i :: 0 <= i < |beats| ==> PrunesNoSpend(Run(rule, seen, beats[..i]), beats[i])
  }

  /** Everything reported is on record. */
  ghost predicate OnRecord(f: Fleet) {
    forall d :: Get(f.paid, d) == Get(f.row.spent, d)
  }

  /** Every report is an int64 amount; nothing else is asked of the run. */
  ghost predicate AllReportable(beats: seq<Beat>) {
    forall i :: 0 <= i < |beats| ==> Reportable(beats[i].values)
  }

  lemma {:induction false} StepKeepsBooks(f: Fleet, b: Beat)
    requires Books(f) && Reportable(b.values)
    ensures Books(Step(f, b)) && f.forgotten <= Step(f, b).forgotten
  {
    hide Books, Reportable, Stale, Dropped;
    var clock := f.seen[b.dp := b.now];
    BeatSplits(f, b);
    AbsorbKeepsBooks(f, b.dp, b.values);
    var absorbed := Absorbed(f, b.dp, b.values).(seen := clock);
    SeenIsFree(Absorbed(f, b.dp, b.values), clock);
    PruneKeepsBooks(absorbed, Stale(clock, b.now));
    LeaseKeepsBooks(Pruned(absorbed, Stale(clock, b.now)), b.now, b.dp);
  }

  lemma {:induction false} LeaseKeepsBooks(f: Fleet, now: int, dp: string)
    requires Books(f) && dp in f.peak
    ensures Books(Leased(f, now, dp))
  {
    hide Total, Headroom, GrantedAllowance;
    GrantRoom(f, now, dp);
  }

  /** The books are kept in every run, over any number of windows. */
  lemma {:induction false} RunKeepsBooks(rule: Row, seen: Clock, beats: seq<Beat>)
    requires FreshRule(rule) && AllReportable(beats)
    ensures Books(Run(rule, seen, beats))
  {
    hide Step, Reportable;
    if beats != [] {
      hide Books;
      var n := |beats| - 1;
      RunKeepsBooks(rule, seen, beats[..n]);
      StepKeepsBooks(Run(rule, seen, beats[..n]), beats[n]);
    }
  }

  /** What a heartbeat leaves on record. */
  lemma {:induction false} StepRecord(f: Fleet, b: Beat, d: string)
    ensures var g := Step(f, b); var dead := Stale(f.seen[b.dp := b.now], b.now);
            && b.dp !in dead
            && Get(g.paid, d) == (if d == b.dp then LastReport(Get(f.paid, d), b.values) else Get(f.paid, d))
            && Get(g.row.spent, d)
               == (if d in dead then 0
                   else if d == b.dp then LastReport(Get(f.row.spent, d), b.values) else Get(f.row.spent, d))
  {
    hide AbsorbValues, GrantedAllowance, BatchOverrun, Dropped;
    AbsorbShape(f.row, b.dp, b.values);
  }

  /** From full books, a heartbeat leaves full books exactly when it prunes no spend. */
  lemma {:induction false} StepOnRecordIff(f: Fleet, b: Beat)
    requires OnRecord(f)
    ensures OnRecord(Step(f, b)) <==> PrunesNoSpend(f, b)
  {
    hide Step, Stale;
    forall d
      ensures Get(Step(f, b).paid, d) == Get(Step(f, b).row.spent, d)
              <==> (d in Stale(f.seen[b.dp := b.now], b.now) ==> Get(f.row.spent, d) == 0)
    {
      StepRecord(f, b, d);
    }
  }

  /**
   The ledger has everything that was reported on record, all along a run, if and only if no heartbeat of the
   run prunes a plane that has spend on record.
   */
  lemma {:induction false} OnRecordIff(rule: Row, seen: Clock, beats: seq<Beat>)
    requires FreshRule(rule)
    ensures (forall n :: 0 <= n <= |beats| ==> OnRecord(Run(rule, seen, beats[..n]))) <==> NeverPrunesSpend(rule, seen, beats)
  {
    hide Step, OnRecord, PrunesNoSpend;
    if forall n :: 0 <= n <= |beats| ==> OnRecord(Run(rule, seen, beats[..n])) {
      forall i | 0 <= i < |beats|
        ensures PrunesNoSpend(Run(rule, seen, beats[..i]), beats[i])
      {
        assert beats[..i + 1][..i] == beats[..i];
        assert OnRecord(Run(rule, seen, beats[..i + 1])) && OnRecord(Run(rule, seen, beats[..i]));
        StepOnRecordIff(Run(rule, seen, beats[..i]), beats[i]);
      }
    }
    if NeverPrunesSpend(rule, seen, beats) {
      forall n | 0 <= n <= |beats|
        ensures OnRecord(Run(rule, seen, beats[..n]))
      {
        StaysOnRecord(rule, seen, beats, n);
      }
    }
  }

  lemma {:induction false} StaysOnRecord(rule: Row, seen: Clock, beats: seq<Beat>, n: nat)
    requires FreshRule(rule) && n <= |beats| && NeverPrunesSpend(rule, seen, beats)
    ensures OnRecord(Run(rule, seen, beats[..n])) && Run(rule, seen, beats[..n]).forgotten == 0
  {
    hide Step, PrunesNoSpend;
    if n > 0 {
      hide OnRecord;
      StaysOnRecord(rule, seen, beats, n - 1);
      var f := Run(rule, seen, beats[..n - 1]);
      assert beats[..n][..n - 1] == beats[..n - 1];
      assert PrunesNoSpend(f, beats[n - 1]);
      StepOnRecordIff(f, beats[n - 1]);
      StepForgetsNothing(f, beats[n - 1]);
    }
  }

  lemma {:induction false} StepForgetsNothing(f: Fleet, b: Beat)
    requires PrunesNoSpend(f, b)
    ensures Step(f, b).forgotten == f.forgotten
  {
    hide BeatRow, BatchOverrun, AbsorbValues;
    var dead := Stale(f.seen[b.dp := b.now], b.now);
    var l := AbsorbValues(f.row, b.dp, b.values);
    AbsorbShape(f.row, b.dp, b.values);
    assert b.dp !in dead;
    forall d | d in dead && d in l.spent
      ensures l.spent[d] == 0
    {
      assert Get(f.row.spent, d) == 0;
    }
    TotalWithoutZeros(l.spent, dead);
  }

  lemma {:induction false} TotalWithoutZeros(m: map<string, int>, dead: set<string>)
    requires forall d :: d in dead && d in m ==> m[d] == 0
    ensures Total(m - dead) == Total(m)
    decreases |m|
  {
    if d :| d in dead && d in m {
      TotalRemove(m, d);
      TotalWithoutZeros(m - {d}, dead);
      assert m - {d} - dead == m - dead;
    } else {
      assert m - dead == m;
    }
  }

  /** With no spend pruned, the documented bound: nothing is added for what was forgotten. */
  lemma {:induction false} FleetOvershootOnRecord(rule: Row, seen: Clock, beats: seq<Beat>)
    requires FreshRule(rule) && OneWindow(rule, seen, beats) && beats != [] && NeverPrunesSpend(rule, seen, beats)
    ensures var f := Run(rule, seen, beats);
            Total(f.paid) <= Total(Claim(f.paid, f.peak)) <= rule.limit + rule.grant * (|f.peak| - 1) + f.overrun
  {
    hide *;
    assert beats[..|beats|] == beats;
    FleetOvershoot(rule, seen, beats);
    StaysOnRecord(rule, seen, beats, |beats|);
  }
}
