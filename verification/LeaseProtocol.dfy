/**
 Control plane and data plane together: what an unexpired lease on a data plane says about the
 ledger, through later heartbeats of the whole fleet, lost answers and pruning.
 */
module LeaseProtocol {
  import opened Periods
  import opened Options
  import opened Ints
  import opened Sums
  import opened Ledger
  import opened FleetBound
  import opened Reservation
  import LeaseTable

  // ---- one rule -----------------------------------------------------------------------------------

  /** A rule looked at on its own goes by this name; no lease depends on it. */
  const SOLE: RuleKey := RuleKey("", "")

  /** The lease that the `i`-th heartbeat of a run answered to its sender. */
  ghost function Issued(rule: Row, beats: seq<Beat>, i: nat): LeaseGrant
    requires i < |beats|
  {
    LeaseOf(SOLE, Run(rule, map[], beats[..i + 1]).row, beats[i].dp, beats[i].now)
  }

  ghost function IssuedAllowance(rule: Row, beats: seq<Beat>, i: nat): int
    requires i < |beats|
  {
    Issued(rule, beats, i).allowance
  }

  ghost function IssuedExpiry(rule: Row, beats: seq<Beat>, i: nat): int
    requires i < |beats|
  {
    Issued(rule, beats, i).expiresAt
  }

  lemma {:induction false} IssuedIs(rule: Row, beats: seq<Beat>, i: nat)
    requires i < |beats|
    ensures IssuedExpiry(rule, beats, i) == beats[i].now + 3 * rule.renew
    ensures IssuedAllowance(rule, beats, i) == Get(Run(rule, map[], beats[..i + 1]).row.allowance, beats[i].dp)
  {
    hide Step;
    RunKeepsRenew(rule, beats[..i + 1]);
  }

  /** After its `i`-th heartbeat the sender's own counter never falls again. */
  ghost predicate SteadyAfter(rule: Row, beats: seq<Beat>, i: nat)
    requires i < |beats|
  {
    forall j :: i < j < |beats| && beats[j].dp == beats[i].dp ==>
      Growing(Run(rule, map[], beats[..j]).row, beats[j].dp, beats[j].values)
  }

  /** The sender is registered since `since`, holds at least `a`, and never more than a grant past its reports. */
  ghost predicate Holds(f: Fleet, dp: string, since: int, a: int) {
    && dp in f.seen && since <= f.seen[dp]
    && dp in f.row.allowance && a <= f.row.allowance[dp]
    && Get(f.row.spent, dp) <= f.row.allowance[dp] <= Get(f.row.spent, dp) + f.row.grant
  }

  /** In one window absorbing leaves every allowance alone. */
  lemma {:induction false} AbsorbKeepsAllowance(l: Row, dp: string, vs: seq<int>)
    requires Growing(l, dp, vs)
    ensures AbsorbValues(l, dp, vs).allowance == l.allowance
  {
    if vs != [] {
      AbsorbKeepsAllowance(l, dp, vs[..|vs| - 1]);
      AbsorbShape(l, dp, vs[..|vs| - 1]);
    }
  }

  /** A heartbeat by another plane does not disturb a holder that is not stale. */
  lemma {:induction false} OthersLeaveHolder(f: Fleet, b: Beat, dp: string, since: int, a: int)
    requires Holds(f, dp, since, a) && b.dp != dp && b.now <= since + PRUNE_AFTER
    ensures Holds(Step(f, b), dp, since, a)
  {
    var clock := f.seen[b.dp := b.now];
    var dead := Stale(clock, b.now);
    assert dp !in dead;
    AbsorbElsewhere(f.row, b.dp, b.values, dp);
  }

  lemma {:induction false} AbsorbElsewhere(l: Row, dp: string, vs: seq<int>, d: string)
    requires d != dp
    ensures var r := AbsorbValues(l, dp, vs);
            && Get(r.spent, d) == Get(l.spent, d)
            && (d in r.allowance <==> d in l.allowance) && Get(r.allowance, d) == Get(l.allowance, d)
  {
    if vs != [] {
      AbsorbElsewhere(l, dp, vs[..|vs| - 1], d);
    }
  }

  /** Renewing a live lease never lowers its allowance: the old one is already inside the limit. */
  lemma {:induction false} RenewalNeverShrinks(l: Row, now: int, seen: Clock, dp: string)
    requires ValidRow(l) && !l.routingOnly && dp != "" && "" !in l.allowance
    requires Live(l, now, seen, dp) && dp in l.allowance
    requires Get(l.spent, dp) <= l.allowance[dp] <= Get(l.spent, dp) + l.grant
    requires Committed(l, now, seen) <= l.limit
    ensures l.allowance[dp] <= GrantedAllowance(l, now, seen, dp)
  {
    SplitShare(l, now, seen, dp);
    SaturatedIsTotal(l.spent);
    SaturatedIsTotal(Reserved(l, now, seen, dp));
  }

  /** Growth reported under a live lease stays within it. */
  lemma {:induction false} AbsorbWithinAllowance(l: Row, now: int, seen: Clock, dp: string, vs: seq<int>)
    requires Growing(l, dp, vs) && HonestBatch(l, now, seen, dp, vs) && Get(l.spent, dp) <= Get(l.allowance, dp)
    ensures Get(l.spent, dp) <= Get(AbsorbValues(l, dp, vs).spent, dp) <= Get(l.allowance, dp)
  {
    AbsorbShape(l, dp, vs);
    if vs != [] {
      var n := |vs| - 1;
      HonestFront(l, now, seen, dp, vs);
      hide AbsorbValues, HonestBatch;
      AbsorbWithinAllowance(l, now, seen, dp, vs[..n]);
      AbsorbKeepsAllowance(l, dp, vs[..n]);
      AbsorbShape(l, dp, vs[..n]);
    }
  }

  lemma {:induction false} HonestFront(l: Row, now: int, seen: Clock, dp: string, vs: seq<int>)
    requires HonestBatch(l, now, seen, dp, vs) && vs != []
    ensures var n := |vs| - 1;
            HonestBatch(l, now, seen, dp, vs[..n]) && HonestValue(AbsorbValues(l, dp, vs[..n]), now, seen, dp, vs[n])
  {
    hide AbsorbValues, HonestValue;
    var n := |vs| - 1;
    assert forall i :: 0 <= i < n ==> vs[..n][..i] == vs[..i];
  }

  /** What the absorbed row still has committed once the sender is refreshed and the dead are dropped. */
  lemma {:induction false} CommittedAfterPrune(l: Row, now: int, seen: Clock, dp: string)
    requires ValidRow(l) && dp != "" && "" !in l.allowance && Live(l, now, seen, dp) && dp in l.allowance
    ensures var dead := Stale(seen[dp := now], now);
            Committed(DropPlanes(l, dead), now, seen[dp := now] - dead) <= Committed(l, now, seen)
  {
    hide Total;
    var clock := seen[dp := now];
    var dead := Stale(clock, now);
    var kept := DropPlanes(l, dead);
    SplitShare(l, now, seen, dp);
    SplitShare(kept, now, clock - dead, dp);
    SameOthers(l, l, now, seen, clock, dp);
    PruneCommitted(l, now, clock, dead, dp);
    assert Share(kept, now, clock - dead, dp) == Share(l, now, seen, dp);
  }

  /** The holder's own later heartbeat renews at no less than it had. */
  lemma {:induction false} RenewalKeepsHolder(f: Fleet, b: Beat, since: int, a: int)
    requires ValidRow(f.row) && !f.row.routingOnly && "" !in f.row.allowance
    requires Holds(f, b.dp, since, a) && HonestBeat(f, b) && Growing(f.row, b.dp, b.values)
    requires Committed(f.row, b.now, f.seen) <= f.row.limit
    requires since <= b.now <= since + 3 * f.row.renew
    ensures Holds(Step(f, b), b.dp, since, a)
  {
    hide Total, Committed, AbsorbValues, Headroom;
    var clock := f.seen[b.dp := b.now];
    var dead := Stale(clock, b.now);
    var l := AbsorbValues(f.row, b.dp, b.values);
    AbsorbKeepsValid(f.row, b.dp, b.values);
    AbsorbKeepsAllowance(f.row, b.dp, b.values);
    AbsorbWithinAllowance(f.row, b.now, f.seen, b.dp, b.values);
    AbsorbHonestBatch(f.row, b.now, f.seen, b.dp, b.values);
    CommittedAfterPrune(l, b.now, f.seen, b.dp);
    var kept := DropPlanes(l, dead);
    assert b.dp !in dead;
    RenewalNeverShrinks(kept, b.now, clock - dead, b.dp);
    GrantFits(kept, b.now, clock - dead, b.dp);
  }

  /** The heartbeat that issues a lease makes its sender a holder of it. */
  lemma {:induction false} IssueMakesHolder(f: Fleet, b: Beat)
    requires ValidRow(f.row) && !f.row.routingOnly && Reportable(b.values)
    ensures Holds(Step(f, b), b.dp, b.now, Get(Step(f, b).row.allowance, b.dp))
  {
    hide Total, Headroom;
    var clock := f.seen[b.dp := b.now];
    var dead := Stale(clock, b.now);
    AbsorbKeepsValid(f.row, b.dp, b.values);
    GrantFits(DropPlanes(AbsorbValues(f.row, b.dp, b.values), dead), b.now, clock - dead, b.dp);
  }

  /** The heartbeat at `n` of an honest run is honest, and not earlier than those before it. */
  lemma {:induction false} HonestAt(rule: Row, beats: seq<Beat>, i: nat, n: nat)
    requires HonestRun(rule, beats) && i <= n < |beats|
    ensures HonestBeat(Run(rule, map[], beats[..n]), beats[n]) && beats[i].now <= beats[n].now && Reportable(beats[n].values)
    ensures Run(rule, map[], beats[..n + 1]) == Step(Run(rule, map[], beats[..n]), beats[n])
    ensures n > 0 ==> beats[..n] != [] && beats[..n][|beats[..n]| - 1].now <= beats[n].now
  {
    hide Step, HonestBatch, Reportable;
    assert beats[..n + 1][..n] == beats[..n];
  }

  lemma {:induction false} FreshIsLeasable(rule: Row)
    requires FreshRule(rule)
    ensures !rule.routingOnly
  {
  }

  lemma {:induction false} SteadyAt(rule: Row, beats: seq<Beat>, i: nat, n: nat)
    requires i < n < |beats| && SteadyAfter(rule, beats, i)
    ensures beats[n].dp == beats[i].dp ==> Growing(Run(rule, map[], beats[..n]).row, beats[n].dp, beats[n].values)
  {
    hide Run, Growing;
  }

  lemma {:induction false} RunKeepsHolder(rule: Row, beats: seq<Beat>, i: nat, n: nat, t: int)
    requires FreshRule(rule) && HonestRun(rule, beats) && i < n <= |beats|
    requires SteadyAfter(rule, beats, i)
    requires beats[n - 1].now <= t <= IssuedExpiry(rule, beats, i)
    requires 3 * rule.renew <= PRUNE_AFTER
    ensures Holds(Run(rule, map[], beats[..n]), beats[i].dp, beats[i].now, IssuedAllowance(rule, beats, i))
  {
    hide *;
    FreshIsLeasable(rule);
    IssuedIs(rule, beats, i);
    HonestAt(rule, beats, i, n - 1);
    HonestPrefix(rule, beats, n - 1);
    var b := beats[n - 1];
    var f := Run(rule, map[], beats[..n - 1]);
    assert beats[..n][..n - 1] == beats[..n - 1];
    RunCommitted(rule, beats[..n - 1], b.now);
    RunKeepsRenew(rule, beats[..n - 1]);
    if n == i + 1 {
      IssueMakesHolder(f, b);
    } else {
      RunKeepsHolder(rule, beats, i, n - 1, t);
      SteadyAt(rule, beats, i, n - 1);
      if b.dp == beats[i].dp {
        RenewalKeepsHolder(f, b, beats[i].now, IssuedAllowance(rule, beats, i));
      } else {
        OthersLeaveHolder(f, b, beats[i].dp, beats[i].now, IssuedAllowance(rule, beats, i));
      }
    }
  }

  /**
   An unexpired lease is still backed. Whichever answer a data plane last received - the newest one or
   an older one whose successors were lost - until it expires the ledger counts the holder live and
   keeps at least that allowance for it, provided leases do not outlive the prune horizon.
   */
  lemma {:induction false} UnexpiredIsReserved(rule: Row, beats: seq<Beat>, i: nat, t: int)
    requires FreshRule(rule) && HonestRun(rule, beats) && i < |beats|
    requires SteadyAfter(rule, beats, i)
    requires beats[|beats| - 1].now <= t <= IssuedExpiry(rule, beats, i)
    requires 3 * rule.renew <= PRUNE_AFTER
    ensures var f := Run(rule, map[], beats);
            && Live(f.row, t, f.seen, beats[i].dp)
            && IssuedAllowance(rule, beats, i) <= Get(f.row.allowance, beats[i].dp)
            && IssuedAllowance(rule, beats, i) - Get(f.row.spent, beats[i].dp)
               <= Get(Reserved(f.row, t, f.seen, ""), beats[i].dp)
  {
    hide Step, Committed, HonestBatch, Growing, Issued, IssuedAllowance, IssuedExpiry, SteadyAfter;
    IssuedIs(rule, beats, i);
    RunKeepsHolder(rule, beats, i, |beats|, t);
    assert beats[..|beats|] == beats;
    RunCommitted(rule, beats, t);
    assert HonestBeat(Run(rule, map[], beats[..i]), beats[i]);
  }

  // ---- when the ledger's clock and the lease's expiry agree ------------------------------------------

  /** The `i`-th heartbeat is the last one from its sender, and the clock has reached `t` without running backwards. */
  ghost predicate LastIssue(beats: seq<Beat>, i: nat, t: int) {
    && i < |beats|
    && (forall j :: i < j < |beats| ==> beats[j].dp != beats[i].dp)
    && (forall j, k :: 0 <= j < k < |beats| ==> beats[j].now <= beats[k].now)
    && beats[|beats| - 1].now <= t
  }

  ghost predicate CountedLive(rule: Row, beats: seq<Beat>, i: nat, t: int)
    requires i < |beats|
  {
    var f := Run(rule, map[], beats); Live(f.row, t, f.seen, beats[i].dp)
  }

  lemma {:induction false} RunKeepsRenew(rule: Row, beats: seq<Beat>)
    ensures Run(rule, map[], beats).row.renew == rule.renew
  {
    if beats != [] {
      RunKeepsRenew(rule, beats[..|beats| - 1]);
    }
  }

  /** A silent plane keeps its time of last heartbeat, and its registration until the prune horizon. */
  lemma {:induction false} SilentSince(rule: Row, beats: seq<Beat>, i: nat, n: nat, t: int)
    requires LastIssue(beats, i, t) && i < n <= |beats|
    ensures var seen := Run(rule, map[], beats[..n]).seen;
            && (beats[i].dp in seen ==> seen[beats[i].dp] == beats[i].now)
            && (beats[n - 1].now <= beats[i].now + PRUNE_AFTER ==> beats[i].dp in seen)
  {
    hide Step;
    assert beats[..n][..n - 1] == beats[..n - 1];
    StepClock(Run(rule, map[], beats[..n - 1]), beats[n - 1]);
    if n > i + 1 {
      SilentSince(rule, beats, i, n - 1, t);
    }
  }

  lemma {:induction false} StepClock(f: Fleet, b: Beat)
    ensures Step(f, b).seen == f.seen[b.dp := b.now] - Stale(f.seen[b.dp := b.now], b.now)
  {
  }

  lemma {:induction false} LiveUntilExpiry(rule: Row, beats: seq<Beat>, i: nat, t: int)
    requires LastIssue(beats, i, t) && 3 * rule.renew <= PRUNE_AFTER
    ensures CountedLive(rule, beats, i, t) <==> t <= IssuedExpiry(rule, beats, i)
  {
    hide Step;
    IssuedIs(rule, beats, i);
    SilentSince(rule, beats, i, |beats|, t);
    assert beats[..|beats|] == beats;
    RunKeepsRenew(rule, beats);
  }

  /** Past the horizon another plane's heartbeat prunes a holder whose lease has not expired. */
  lemma {:induction false} PrunedWhileUnexpired(rule: Row)
    requires PRUNE_AFTER < 3 * rule.renew
    ensures var beats := [Beat("a", [], 0), Beat("b", [], PRUNE_AFTER + 1)];
            && LastIssue(beats, 0, PRUNE_AFTER + 1)
            && PRUNE_AFTER + 1 <= IssuedExpiry(rule, beats, 0)
            && !CountedLive(rule, beats, 0, PRUNE_AFTER + 1)
  {
    var a, b := Beat("a", [], 0), Beat("b", [], PRUNE_AFTER + 1);
    var beats := [a, b];
    assert beats[..1] == [a] && [a][..0] == [];
    IssuedIs(rule, beats, 0);
    SilentSince(rule, [a], 0, 1, 0);
    assert [a][..1] == [a];
    assert Run(rule, map[], beats) == Step(Run(rule, map[], [a]), b);
    assert "a" in Stale(Run(rule, map[], [a]).seen["b" := b.now], b.now);
  }

  /**
   The control plane counts a holder's grant as outstanding exactly while the lease last issued to it
   is unexpired - in every run, at every time - if and only if a lease cannot outlive the prune horizon.
   */
  lemma {:induction false} OutstandingIffUnexpired(rule: Row)
    ensures 3 * rule.renew <= PRUNE_AFTER <==>
            (forall beats, i, t :: LastIssue(beats, i, t) ==>
               (CountedLive(rule, beats, i, t) <==> t <= IssuedExpiry(rule, beats, i)))
  {
    hide CountedLive;
    if 3 * rule.renew <= PRUNE_AFTER {
      forall beats, i, t | LastIssue(beats, i, t)
        ensures CountedLive(rule, beats, i, t) <==> t <= IssuedExpiry(rule, beats, i)
      {
        LiveUntilExpiry(rule, beats, i, t);
      }
    } else {
      PrunedWhileUnexpired(rule);
    }
  }

  // ---- how much stays reserved for the lease last issued ---------------------------------------------

  /** The spend on record when the `i`-th heartbeat was answered. */
  ghost function IssuedSpent(rule: Row, beats: seq<Beat>, i: nat): int
    requires i < |beats|
  {
    Get(Run(rule, map[], beats[..i + 1]).row.spent, beats[i].dp)
  }

  /** The entries of one plane in a row. */
  predicate SameEntries(l: Row, r: Row, d: string) {
    && (d in l.allowance <==> d in r.allowance)
    && Get(l.allowance, d) == Get(r.allowance, d) && Get(l.spent, d) == Get(r.spent, d)
  }

  /** Another plane's heartbeat, honest or not, leaves the entries of a plane that is not stale alone. */
  lemma {:induction false} OthersLeaveEntries(f: Fleet, b: Beat, d: string)
    requires b.dp != d && d !in Stale(f.seen[b.dp := b.now], b.now)
    ensures SameEntries(Step(f, b).row, f.row, d)
  {
    hide AbsorbValues, GrantedAllowance, BatchOverrun;
    AbsorbElsewhere(f.row, b.dp, b.values, d);
  }

  /** Until its lease may have expired, a silent plane's entries stay as its last heartbeat left them. */
  lemma {:induction false} SilentKeepsEntries(rule: Row, beats: seq<Beat>, i: nat, n: nat, t: int)
    requires LastIssue(beats, i, t) && i < n <= |beats| && beats[n - 1].now <= beats[i].now + PRUNE_AFTER
    ensures SameEntries(Run(rule, map[], beats[..n]).row, Run(rule, map[], beats[..i + 1]).row, beats[i].dp)
  {
    hide Step, SameEntries;
    var d := beats[i].dp;
    if n > i + 1 {
      var b, f := beats[n - 1], Run(rule, map[], beats[..n - 1]);
      SilentKeepsEntries(rule, beats, i, n - 1, t);
      SilentSince(rule, beats, i, n - 1, t);
      assert beats[..n][..n - 1] == beats[..n - 1];
      OthersLeaveEntries(f, b, d);
      SameTwice(Run(rule, map[], beats[..n]).row, f.row, Run(rule, map[], beats[..i + 1]).row, d);
    } else {
      SameTwice(Run(rule, map[], beats[..n]).row, Run(rule, map[], beats[..n]).row, Run(rule, map[], beats[..n]).row, d);
    }
  }

  lemma {:induction false} SameTwice(a: Row, b: Row, l: Row, d: string)
    ensures SameEntries(a, a, d)
    ensures SameEntries(a, b, d) && SameEntries(b, l, d) ==> SameEntries(a, l, d)
  {
  }

  /** What the ledger holds back for a plane when it answers another one. */
  ghost function HeldBack(rule: Row, beats: seq<Beat>, i: nat, t: int): int
    requires i < |beats|
  {
    var f := Run(rule, map[], beats); Get(Reserved(f.row, t, f.seen, ""), beats[i].dp)
  }

  /** The part of the `i`-th answer that was not spent when it was given. */
  ghost function IssuedHeadroom(rule: Row, beats: seq<Beat>, i: nat): int
    requires i < |beats|
  {
    Max(0, IssuedAllowance(rule, beats, i) - IssuedSpent(rule, beats, i))
  }

  lemma {:induction false} HeldBackIs(l: Row, now: int, seen: Clock, d: string)
    requires d != "" && (d !in l.allowance ==> 0 <= Get(l.spent, d))
    ensures Get(Reserved(l, now, seen, ""), d)
            == if Live(l, now, seen, d) then Max(0, Get(l.allowance, d) - Get(l.spent, d)) else 0
  {
  }

  /** Spend on record is never negative. */
  lemma {:induction false} SpendNotNegative(rule: Row, beats: seq<Beat>, d: string)
    requires FreshRule(rule) && forall j :: 0 <= j < |beats| ==> Reportable(beats[j].values)
    ensures 0 <= Get(Run(rule, map[], beats).row.spent, d) && ValidRow(Run(rule, map[], beats).row)
  {
    hide Step;
    if beats != [] {
      var n := |beats| - 1;
      SpendNotNegative(rule, beats[..n], d);
      StepKeepsValid(Run(rule, map[], beats[..n]), beats[n]);
    }
  }

  lemma {:induction false} StepKeepsValid(f: Fleet, b: Beat)
    requires ValidRow(f.row) && Reportable(b.values)
    ensures ValidRow(Step(f, b).row)
  {
    BeatKeepsValid(f.row, b.dp, b.values, f.seen, b.now);
  }

  /** A run whose reports are int64 amounts, by named planes; nothing says they stay within what was granted. */
  ghost predicate Plausible(beats: seq<Beat>) {
    forall j :: 0 <= j < |beats| ==> beats[j].dp != "" && Reportable(beats[j].values)
  }

  /**
   The lease last issued to a plane is backed in full while it is unexpired, and not at all afterwards -
   whatever the other planes report, grow into or overrun. Until the expiry the plane's entries are exactly
   those of the answer, and the ledger holds back exactly the part that was not spent then.
   */
  lemma {:induction false} LastLeaseIsHeldBack(rule: Row, beats: seq<Beat>, i: nat, t: int)
    requires FreshRule(rule) && Plausible(beats) && LastIssue(beats, i, t) && 3 * rule.renew <= PRUNE_AFTER
    ensures HeldBack(rule, beats, i, t) == if t <= IssuedExpiry(rule, beats, i) then IssuedHeadroom(rule, beats, i) else 0
    ensures t <= IssuedExpiry(rule, beats, i) ==>
              SameEntries(Run(rule, map[], beats).row, Run(rule, map[], beats[..i + 1]).row, beats[i].dp)
  {
    hide Step, Reserved;
    var f, d := Run(rule, map[], beats), beats[i].dp;
    assert beats[..|beats|] == beats;
    IssuedIs(rule, beats, i);
    LiveUntilExpiry(rule, beats, i, t);
    SpendNotNegative(rule, beats, d);
    HeldBackIs(f.row, t, f.seen, d);
    if t <= IssuedExpiry(rule, beats, i) {
      SilentKeepsEntries(rule, beats, i, |beats|, t);
    }
  }

  /** The first plane ever heard is granted something, if grants are positive at all. */
  lemma {:induction false} FirstGrant(rule: Row)
    requires FreshRule(rule) && 0 < rule.grant
    ensures var f := Run(rule, map[], [Beat("a", [], 0)]);
            Get(f.row.spent, "a") == 0 && Get(f.row.allowance, "a") > 0
  {
    var a := Beat("a", [], 0);
    assert [a][..0] == [];
    var f := Run(rule, map[], [a][..0]);
    assert Run(rule, map[], [a]) == Step(f, a);
    var clock := map["a" := 0];
    assert f.seen["a" := 0] == clock && Stale(clock, 0) == {} && clock - {} == clock;
    assert AbsorbValues(rule, "a", []) == rule;
    DropTwice(rule, {}, {});
    assert BeatRow(rule, "a", [], map[], 0) == Granted(rule, 0, clock, "a");
    assert Reserved(rule, 0, clock, "a") == map[];
  }

  /**
   In every run, at every time, the ledger holds back exactly the unspent part of the lease last issued to a
   plane while that lease is unexpired and nothing afterwards - if and only if a lease cannot outlive the
   prune horizon.
   */
  lemma {:induction false} HeldBackIffUnexpired(rule: Row)
    requires FreshRule(rule) && 0 < rule.grant
    ensures 3 * rule.renew <= PRUNE_AFTER <==>
            (forall beats, i, t :: Plausible(beats) && LastIssue(beats, i, t) ==>
               HeldBack(rule, beats, i, t) == if t <= IssuedExpiry(rule, beats, i) then IssuedHeadroom(rule, beats, i) else 0)
  {
    hide HeldBack, IssuedHeadroom;
    if 3 * rule.renew <= PRUNE_AFTER {
      forall beats, i, t | Plausible(beats) && LastIssue(beats, i, t)
        ensures HeldBack(rule, beats, i, t) == if t <= IssuedExpiry(rule, beats, i) then IssuedHeadroom(rule, beats, i) else 0
      {
        LastLeaseIsHeldBack(rule, beats, i, t);
      }
    } else {
      PrunedGrantIsGone(rule);
      var beats := [Beat("a", [], 0), Beat("b", [], PRUNE_AFTER + 1)];
      assert Plausible(beats) && LastIssue(beats, 0, PRUNE_AFTER + 1);
    }
  }

  lemma {:induction false} PrunedGrantIsGone(rule: Row)
    requires FreshRule(rule) && 0 < rule.grant && PRUNE_AFTER < 3 * rule.renew
    ensures var beats := [Beat("a", [], 0), Beat("b", [], PRUNE_AFTER + 1)];
            && LastIssue(beats, 0, PRUNE_AFTER + 1) && PRUNE_AFTER + 1 <= IssuedExpiry(rule, beats, 0)
            && HeldBack(rule, beats, 0, PRUNE_AFTER + 1) == 0 && IssuedHeadroom(rule, beats, 0) > 0
  {
    hide Step, Reserved;
    var beats := [Beat("a", [], 0), Beat("b", [], PRUNE_AFTER + 1)];
    PrunedWhileUnexpired(rule);
    IssuedIs(rule, beats, 0);
    assert beats[..1] == [Beat("a", [], 0)];
    FirstGrant(rule);
    var f := Run(rule, map[], beats);
    SpendNotNegative(rule, beats, "a");
    HeldBackIs(f.row, PRUNE_AFTER + 1, f.seen, "a");
  }

  // ---- the whole server, and the gate on the data plane ----------------------------------------------

  /** An accepted heartbeat, as the server handles it. */
  datatype Sync = Sync(req: SyncRequest, now: int)

  datatype Plane = Plane(rows: Rows, seen: Clock)

  /** The server after a run of accepted heartbeats; one step is what `Server.HandleSync` does. */
  ghost function Serve(rules: Rows, syncs: seq<Sync>): Plane {
    if syncs == [] then Plane(rules, map[])
    else
      var before, s := Serve(rules, syncs[..|syncs| - 1]), syncs[|syncs| - 1];
      Plane(BeatRows(before.rows, s.req, before.seen, s.now), BeatClock(s.req.dataplane, before.seen, s.now))
  }

  /** The run as one rule's row sees it. */
  function Beats(syncs: seq<Sync>, k: RuleKey, period: Period): seq<Beat> {
    seq(|syncs|, i requires 0 <= i < |syncs| =>
      Beat(syncs[i].req.dataplane, ValuesFor(syncs[i].req.reports, k, period), syncs[i].now))
  }

  /** Rows do not interfere: each one lives exactly its own single-rule run. */
  lemma {:induction false} ServeIsRowwise(rules: Rows, syncs: seq<Sync>, k: RuleKey)
    requires k in rules
    ensures k in Serve(rules, syncs).rows
    ensures Serve(rules, syncs).rows[k] == Run(rules[k], map[], Beats(syncs, k, rules[k].period)).row
    ensures Serve(rules, syncs).seen == Run(rules[k], map[], Beats(syncs, k, rules[k].period)).seen
    ensures Serve(rules, syncs).rows[k].period == rules[k].period
  {
    hide BeatRow, BeatClock;
    if syncs != [] {
      var n := |syncs| - 1;
      ServeIsRowwise(rules, syncs[..n], k);
      var beats := Beats(syncs, k, rules[k].period);
      assert beats[..n] == Beats(syncs[..n], k, rules[k].period);
      RowKeepsPeriod(Serve(rules, syncs[..n]).rows[k], beats[n], Serve(rules, syncs[..n]).seen);
    }
  }

  lemma {:induction false} RowKeepsPeriod(l: Row, b: Beat, seen: Clock)
    ensures BeatRow(l, b.dp, b.values, seen, b.now).period == l.period
  {
  }

  /** A heartbeat changes nothing of a row but the two maps. */
  lemma {:induction false} BeatKeepsRule(l: Row, dp: string, vs: seq<int>, seen: Clock, now: int)
    ensures var r := BeatRow(l, dp, vs, seen, now); r == l.(spent := r.spent, allowance := r.allowance)
  {
  }

  lemma {:induction false} ServeKeepsRule(rules: Rows, syncs: seq<Sync>, k: RuleKey)
    requires k in rules
    ensures k in Serve(rules, syncs).rows
    ensures var r := Serve(rules, syncs).rows[k]; r == rules[k].(spent := r.spent, allowance := r.allowance)
  {
    hide BeatRow, BeatClock;
    if syncs != [] {
      var n := |syncs| - 1;
      var before := Serve(rules, syncs[..n]);
      ServeKeepsRule(rules, syncs[..n], k);
      BeatKeepsRule(before.rows[k], syncs[n].req.dataplane, ValuesFor(syncs[n].req.reports, k, before.rows[k].period),
                    before.seen, syncs[n].now);
    }
  }

  /** The row an answer was given from is the one of the rule's own run. */
  lemma {:induction false} AnsweredIs(rules: Rows, syncs: seq<Sync>, i: nat, k: RuleKey)
    requires i < |syncs| && k in rules
    ensures var beats := Beats(syncs, k, rules[k].period);
            && k in Serve(rules, syncs[..i + 1]).rows
            && Serve(rules, syncs[..i + 1]).rows[k] == Run(rules[k], map[], beats[..i + 1]).row
            && Serve(rules, syncs[..i + 1]).rows[k].renew == rules[k].renew
            && |beats| == |syncs| && beats[i].dp == syncs[i].req.dataplane && beats[i].now == syncs[i].now
  {
    hide BeatRows, BeatClock, Step;
    var beats := Beats(syncs, k, rules[k].period);
    assert beats[..i + 1] == Beats(syncs[..i + 1], k, rules[k].period);
    ServeIsRowwise(rules, syncs[..i + 1], k);
    ServeKeepsRule(rules, syncs[..i + 1], k);
  }

  function Wire(leases: seq<LeaseGrant>): seq<LeaseTable.WireGrant> {
    seq(|leases|, i requires 0 <= i < |leases| =>
      LeaseTable.WireGrant(leases[i].team, leases[i].allowance, leases[i].expiresAt, leases[i].hard, Some(leases[i].period)))
  }

  /** The gate lets the team's traffic through. */
  ghost predicate LetThrough(t: LeaseTable.Table, team: string, now: int) {
    forall p :: LeaseTable.Has(t, team, p) ==> !LeaseTable.Refuses(t[team][p], now)
  }

  /** Merged into a hard, unrefused lease, a grant has not expired. */
  lemma {:induction false} LetThroughUnexpired(leases: seq<LeaseGrant>, t: LeaseTable.Table, j: nat, now: int)
    requires LeaseTable.Merged(t, Wire(leases)) && j < |leases|
    requires LetThrough(t, leases[j].team, now)
    requires LeaseTable.Has(t, leases[j].team, leases[j].period) ==> t[leases[j].team][leases[j].period].hard
    ensures now <= leases[j].expiresAt
  {
    var g := Wire(leases)[j];
    assert LeaseTable.Concerns(g, leases[j].team, leases[j].period);
    assert LeaseTable.Has(t, leases[j].team, leases[j].period);
  }

  /**
   Whenever the gate lets a team with a hard lease in a window through, every grant merged into that
   window is still reserved on the control plane: its holder is counted live and at least the granted
   allowance is kept for it, whatever the rest of the fleet did meanwhile and whichever later answers
   were lost.
   */
  lemma {:induction false} UnblockedMeansReserved(rules: Rows, syncs: seq<Sync>, i: nat, leases: seq<LeaseGrant>,
                               t: LeaseTable.Table, j: nat, now: int)
    requires i < |syncs| && syncs[|syncs| - 1].now <= now && j < |leases|
    requires var issued := Serve(rules, syncs[..i + 1]);
             LeasesOf(leases, issued.rows, issued.rows.Keys, syncs[i].req.dataplane, syncs[i].now)
    requires LeaseTable.Merged(t, Wire(leases)) && LetThrough(t, leases[j].team, now)
    requires LeaseTable.Has(t, leases[j].team, leases[j].period) ==> t[leases[j].team][leases[j].period].hard
    requires leases[j].key in rules
    requires var rule := rules[leases[j].key];
             var beats := Beats(syncs, leases[j].key, rule.period);
             FreshRule(rule) && HonestRun(rule, beats) && SteadyAfter(rule, beats, i) && 3 * rule.renew <= PRUNE_AFTER
    ensures leases[j].key in Serve(rules, syncs).rows
    ensures var at := Serve(rules, syncs);
            var row := at.rows[leases[j].key];
            && Live(row, now, at.seen, syncs[i].req.dataplane)
            && leases[j].allowance <= Get(row.allowance, syncs[i].req.dataplane)
            && leases[j].allowance - Get(row.spent, syncs[i].req.dataplane)
               <= Get(Reserved(row, now, at.seen, ""), syncs[i].req.dataplane)
  {
    hide BeatRows, Step, HonestRun, SteadyAfter;
    var k := leases[j].key;
    var rule := rules[k];
    var beats := Beats(syncs, k, rule.period);
    assert beats[..i + 1] == Beats(syncs[..i + 1], k, rule.period);
    ServeIsRowwise(rules, syncs, k);
    ServeIsRowwise(rules, syncs[..i + 1], k);
    RunKeepsRenew(rule, beats[..i + 1]);
    LetThroughUnexpired(leases, t, j, now);
    UnexpiredIsReserved(rule, beats, i, now);
  }

  /** A server keeps its rules. */
  lemma {:induction false} ServeKeepsRules(rules: Rows, syncs: seq<Sync>)
    ensures Serve(rules, syncs).rows.Keys == rules.Keys
  {
    hide BeatRow, BeatClock;
    if syncs != [] {
      ServeKeepsRules(rules, syncs[..|syncs| - 1]);
    }
  }

  /** Every state a server can reach holds int64 amounts and well-formed rules. */
  lemma {:induction false} ServeKeepsValid(rules: Rows, syncs: seq<Sync>)
    requires ValidRows(rules) && forall i :: 0 <= i < |syncs| ==> WellFormed(syncs[i].req)
    ensures ValidRows(Serve(rules, syncs).rows)
  {
    hide BeatRows, BeatClock, ValidRows, WellFormed;
    if syncs != [] {
      var n := |syncs| - 1;
      ServeKeepsValid(rules, syncs[..n]);
      BeatRowsKeepValid(Serve(rules, syncs[..n]).rows, syncs[n].req, Serve(rules, syncs[..n]).seen, syncs[n].now);
    }
  }

  /** The plane's `i`-th heartbeat is its last, and the server's clock has reached `now`. */
  ghost predicate LastSync(syncs: seq<Sync>, i: nat, now: int) {
    && i < |syncs|
    && (forall j :: i < j < |syncs| ==> syncs[j].req.dataplane != syncs[i].req.dataplane)
    && (forall j, k :: 0 <= j < k < |syncs| ==> syncs[j].now <= syncs[k].now)
    && syncs[|syncs| - 1].now <= now
  }

  /**
   The gate and the ledger agree on the newest answer, for every fleet. When the gate lets a team with a hard
   lease in a window through, every grant of the plane's latest answer merged into that window is counted
   live, is unchanged in the ledger, and what of it was unspent is held back in full - whatever the other
   planes reported meanwhile.
   */
  lemma {:induction false} LatestAnswerIsHeldBack(rules: Rows, syncs: seq<Sync>, i: nat, leases: seq<LeaseGrant>,
                                                  t: LeaseTable.Table, j: nat, now: int)
    requires LastSync(syncs, i, now) && j < |leases| && forall n :: 0 <= n < |syncs| ==> WellFormed(syncs[n].req)
    requires var issued := Serve(rules, syncs[..i + 1]);
             LeasesOf(leases, issued.rows, issued.rows.Keys, syncs[i].req.dataplane, syncs[i].now)
    requires LeaseTable.Merged(t, Wire(leases)) && LetThrough(t, leases[j].team, now)
    requires LeaseTable.Has(t, leases[j].team, leases[j].period) ==> t[leases[j].team][leases[j].period].hard
    requires leases[j].key in rules ==> FreshRule(rules[leases[j].key]) && 3 * rules[leases[j].key].renew <= PRUNE_AFTER
    ensures leases[j].key in Serve(rules, syncs).rows
    ensures var at := Serve(rules, syncs);
            var row, dp := at.rows[leases[j].key], syncs[i].req.dataplane;
            && Live(row, now, at.seen, dp) && Get(row.allowance, dp) == leases[j].allowance
            && Get(Reserved(row, now, at.seen, ""), dp) == Max(0, leases[j].allowance - Get(row.spent, dp))
  {
    hide Serve, BeatRows, BeatClock, Step, Reserved, LeaseTable.Merged, WellFormed, FreshRule, Issued, Run;
    var k, dp := leases[j].key, syncs[i].req.dataplane;
    ServeKeepsRules(rules, syncs[..i + 1]);
    AnsweredIs(rules, syncs, i, k);
    var rule := rules[k];
    var beats := Beats(syncs, k, rule.period);
    ServeIsRowwise(rules, syncs, k);
    IssuedIs(rule, beats, i);
    LetThroughUnexpired(leases, t, j, now);
    BeatsPlausible(syncs, k, rule.period);
    LiveUntilExpiry(rule, beats, i, now);
    LastLeaseIsHeldBack(rule, beats, i, now);
  }

  lemma {:induction false} BeatsPlausible(syncs: seq<Sync>, k: RuleKey, period: Period)
    requires forall n :: 0 <= n < |syncs| ==> WellFormed(syncs[n].req)
    ensures Plausible(Beats(syncs, k, period))
  {
    forall n | 0 <= n < |syncs|
      ensures Beats(syncs, k, period)[n].dp != "" && Reportable(Beats(syncs, k, period)[n].values)
    {
      ValuesInRange(syncs[n].req.reports, k, period);
    }
  }
}
