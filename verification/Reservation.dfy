/**
 The reservation invariant of the lease ledger: as long as planes report growth only under a live
 lease and within it, recorded spend and live reservations together never exceed the limit. Windows may
 roll over, answers may be lost, and planes may be pruned - with what a prune drops accounted for.
 */
module Reservation {
  import opened Ints
  import opened Sums
  import opened Ledger
  import opened FleetBound

  /** Reported spend plus every reservation still live at `now`. */
  ghost function Committed(l: Row, now: int, seen: Clock): int {
    SpentTotal(l) + Outstanding(l, now, seen, "")
  }

  /** A report either falls (or stays), or grows under a live lease without passing its allowance. */
  predicate HonestValue(l: Row, now: int, seen: Clock, dp: string, v: int) {
    v <= Get(l.spent, dp) || (Live(l, now, seen, dp) && v <= Get(l.allowance, dp))
  }

  ghost predicate HonestBatch(l: Row, now: int, seen: Clock, dp: string, vs: seq<int>) {
    forall i :: 0 <= i < |vs| ==> HonestValue(AbsorbValues(l, dp, vs[..i]), now, seen, dp, vs[i])
  }

  ghost predicate HonestBeat(f: Fleet, b: Beat) {
    && b.dp != "" && Reportable(b.values)
    && HonestBatch(f.row, b.now, f.seen, b.dp, b.values)
  }

  /** Every heartbeat of the run is honest, and the clock never runs backwards. */
  ghost predicate HonestRun(rule: Row, beats: seq<Beat>) {
    && (forall i :: 0 <= i < |beats| ==> HonestBeat(Run(rule, map[], beats[..i]), beats[i]))
    && (forall i, j :: 0 <= i < j < |beats| ==> beats[i].now <= beats[j].now)
  }

  /** Reservations only lapse as time passes. */
  lemma {:induction false} TimePasses(l: Row, seen: Clock, t: int, now: int)
    requires t <= now
    ensures Committed(l, now, seen) <= Committed(l, t, seen)
  {
    TotalMonotone(Reserved(l, now, seen, ""), Reserved(l, t, seen, ""));
  }

  /** One plane's share of the reservations. */
  ghost function Share(l: Row, now: int, seen: Clock, d: string): int {
    if d in l.allowance && Live(l, now, seen, d) then Max(0, l.allowance[d] - Get(l.spent, d)) else 0
  }

  lemma {:induction false} SplitShare(l: Row, now: int, seen: Clock, dp: string)
    requires dp != "" && "" !in l.allowance
    ensures Outstanding(l, now, seen, "") == Outstanding(l, now, seen, dp) + Share(l, now, seen, dp)
  {
    var all := Reserved(l, now, seen, "");
    assert Reserved(l, now, seen, dp) == all - {dp};
    if dp in all {
      TotalRemove(all, dp);
    } else {
      assert all - {dp} == all;
    }
  }

  /** What others have reserved does not depend on the sender's own entries. */
  lemma {:induction false} SameOthers(l: Row, r: Row, now: int, seen: Clock, clock: Clock, dp: string)
    requires r.renew == l.renew
    requires forall d :: d != dp ==> (d in r.allowance <==> d in l.allowance)
    requires forall d :: d != dp && d in l.allowance ==> r.allowance[d] == l.allowance[d]
    requires forall d :: d != dp ==> Get(r.spent, d) == Get(l.spent, d)
    requires forall d :: d != dp ==> (d in seen <==> d in clock)
    requires forall d :: d != dp && d in seen ==> seen[d] == clock[d]
    ensures Reserved(r, now, clock, dp) == Reserved(l, now, seen, dp)
  {
  }

  /** An honest report moves money from a live reservation to spend, or gives some back. */
  lemma {:induction false} AbsorbHonest(l: Row, now: int, seen: Clock, dp: string, v: int)
    requires ValidRow(l) && dp != "" && "" !in l.allowance && 0 <= v
    requires HonestValue(l, now, seen, dp, v)
    ensures Committed(AbsorbValue(l, dp, v), now, seen) <= Committed(l, now, seen)
  {
    var r := AbsorbValue(l, dp, v);
    SplitShare(l, now, seen, dp);
    SplitShare(r, now, seen, dp);
    SameOthers(l, r, now, seen, seen, dp);
    assert SpentTotal(r) == SpentTotal(l) - Get(l.spent, dp) + v by { TotalUpdate(l.spent, dp, v); }
  }

  lemma {:induction false} HonestBatchPrefix(l: Row, now: int, seen: Clock, dp: string, vs: seq<int>, n: nat)
    requires n <= |vs| && HonestBatch(l, now, seen, dp, vs)
    ensures HonestBatch(l, now, seen, dp, vs[..n])
  {
    hide HonestValue, AbsorbValues;
    assert forall i :: 0 <= i < n ==> vs[..n][..i] == vs[..i];
  }

  lemma {:induction false} AbsorbHonestBatch(l: Row, now: int, seen: Clock, dp: string, vs: seq<int>)
    requires ValidRow(l) && dp != "" && "" !in l.allowance && Reportable(vs)
    requires HonestBatch(l, now, seen, dp, vs)
    ensures "" !in AbsorbValues(l, dp, vs).allowance
    ensures Committed(AbsorbValues(l, dp, vs), now, seen) <= Committed(l, now, seen)
  {
    hide Committed, HonestValue, ValidRow;
    if vs != [] {
      var n := |vs| - 1;
      HonestBatchPrefix(l, now, seen, dp, vs, n);
      AbsorbHonestBatch(l, now, seen, dp, vs[..n]);
      AbsorbKeepsValid(l, dp, vs[..n]);
      AbsorbHonest(AbsorbValues(l, dp, vs[..n]), now, seen, dp, vs[n]);
    }
  }

  /** Forgetting planes forgets their spend and their reservations. */
  lemma {:induction false} PruneCommitted(l: Row, now: int, seen: Clock, dead: set<string>, dp: string)
    requires ValidRow(l)
    ensures SpentTotal(DropPlanes(l, dead)) <= SpentTotal(l)
    ensures Outstanding(DropPlanes(l, dead), now, seen - dead, dp) <= Outstanding(l, now, seen, dp)
  {
    TotalMonotone(l.spent - dead, l.spent);
    TotalMonotone(Reserved(DropPlanes(l, dead), now, seen - dead, dp), Reserved(l, now, seen, dp));
  }

  /** Granting re-reserves the sender's share within what is left. */
  lemma {:induction false} GrantCommitted(l: Row, now: int, seen: Clock, dp: string)
    requires ValidRow(l) && !l.routingOnly && dp != "" && "" !in l.allowance && dp in seen && seen[dp] == now
    requires SpentTotal(l) + Outstanding(l, now, seen, dp) <= l.limit
    ensures Committed(Granted(l, now, seen, dp), now, seen) <= l.limit
  {
    var r := Granted(l, now, seen, dp);
    GrantFits(l, now, seen, dp);
    SplitShare(r, now, seen, dp);
    SameOthers(l, r, now, seen, seen, dp);
    assert Share(r, now, seen, dp) == Headroom(l, now, seen, dp);
  }

  lemma {:induction false} BeatCommitted(l: Row, seen: Clock, b: Beat)
    requires ValidRow(l) && !l.routingOnly && b.dp != "" && "" !in l.allowance && Reportable(b.values)
    requires HonestBatch(l, b.now, seen, b.dp, b.values)
    requires Committed(l, b.now, seen) <= l.limit
    ensures Committed(BeatRow(l, b.dp, b.values, seen, b.now), b.now, BeatClock(b.dp, seen, b.now)) <= l.limit
    ensures "" !in BeatRow(l, b.dp, b.values, seen, b.now).allowance
  {
    var clock := seen[b.dp := b.now];
    var dead := Stale(clock, b.now);
    var absorbed := AbsorbValues(l, b.dp, b.values);
    AbsorbHonestBatch(l, b.now, seen, b.dp, b.values);
    AbsorbKeepsValid(l, b.dp, b.values);
    SplitShare(absorbed, b.now, seen, b.dp);
    SameOthers(absorbed, absorbed, b.now, seen, clock, b.dp);
    PruneCommitted(absorbed, b.now, clock, dead, b.dp);
    GrantCommitted(DropPlanes(absorbed, dead), b.now, clock - dead, b.dp);
  }

  lemma {:induction false} HonestPrefix(rule: Row, beats: seq<Beat>, n: nat)
    requires HonestRun(rule, beats) && n <= |beats|
    ensures HonestRun(rule, beats[..n])
  {
    assert forall i :: 0 <= i < n ==> beats[..n][..i] == beats[..i];
  }

  lemma {:induction false} RunCommitted(rule: Row, beats: seq<Beat>, now: int)
    requires FreshRule(rule) && HonestRun(rule, beats)
    requires beats != [] ==> beats[|beats| - 1].now <= now
    ensures var f := Run(rule, map[], beats);
            && ValidRow(f.row) && f.row == rule.(spent := f.row.spent, allowance := f.row.allowance)
            && "" !in f.row.allowance
            && Committed(f.row, now, f.seen) <= rule.limit
  {
    if beats == [] {
      assert Reserved(rule, now, map[], "") == map[];
    } else {
      var n := |beats| - 1;
      var b := beats[n];
      HonestPrefix(rule, beats, n);
      RunCommitted(rule, beats[..n], b.now);
      var f := Run(rule, map[], beats[..n]);
      BeatKeepsValid(f.row, b.dp, b.values, f.seen, b.now);
      BeatCommitted(f.row, f.seen, b);
      TimePasses(Run(rule, map[], beats).row, Run(rule, map[], beats).seen, b.now, now);
    }
  }

  /**
   No money on record is promised twice: at every moment of every honest run, recorded spend plus live
   reservations fit the limit. What planes have last reported, and what is reserved beside it, can pass the limit
   only by what prunes took off the books.
   */
  lemma {:induction false} NoOvercommit(rule: Row, beats: seq<Beat>, now: int)
    requires FreshRule(rule) && HonestRun(rule, beats)
    requires beats != [] ==> beats[|beats| - 1].now <= now
    ensures var f := Run(rule, map[], beats);
            && SpentTotal(f.row) + Outstanding(f.row, now, f.seen, "") <= rule.limit
            && Total(f.paid) + Outstanding(f.row, now, f.seen, "") <= rule.limit + f.forgotten
            && (NeverPrunesSpend(rule, map[], beats) ==> f.forgotten == 0)
  {
    hide Total, Run, NeverPrunesSpend;
    RunCommitted(rule, beats, now);
    HonestIsReportable(rule, beats);
    RunKeepsBooks(rule, map[], beats);
    if NeverPrunesSpend(rule, map[], beats) {
      assert beats[..|beats|] == beats;
      StaysOnRecord(rule, map[], beats, |beats|);
    }
  }

  lemma {:induction false} HonestIsReportable(rule: Row, beats: seq<Beat>)
    requires HonestRun(rule, beats)
    ensures AllReportable(beats)
  {
    forall i | 0 <= i < |beats|
      ensures Reportable(beats[i].values)
    {
      assert HonestBeat(Run(rule, map[], beats[..i]), beats[i]);
    }
  }
}
