/** Runs that attain the overshoot bound, that break it once spend is pruned, and that need its overrun term. */
module FleetWitness {
  import opened Ints
  import opened Sums
  import opened Ledger
  import opened FleetBound
  import opened Reservation
  import opened LeaseClamp

  lemma {:induction false} SoleTotal(d: string, v: int)
    ensures Total(map[d := v]) == v
  {
    TotalUpdate(map[], d, v);
    assert map[][d := v] == map[d := v];
  }

  lemma {:induction false} EmptyTotal()
    ensures var none: map<string, int> := map[]; Total(none) == 0
  {
  }

  predicate Usable(rule: Row) {
    FreshRule(rule) && 0 < rule.grant <= rule.limit
  }

  // ---- building runs --------------------------------------------------------------------------------

  /** A run of honest reports within one window. */
  ghost predicate GoodRun(rule: Row, beats: seq<Beat>) {
    OneWindow(rule, map[], beats) && HonestRun(rule, beats)
  }

  ghost predicate Fits(f: Fleet, b: Beat) {
    HonestBeat(f, b) && Rising(Get(f.paid, b.dp), b.values)
  }

  predicate NotBefore(beats: seq<Beat>, now: int) {
    forall i :: 0 <= i < |beats| ==> beats[i].now <= now
  }

  lemma {:induction false} GoodExtend(rule: Row, beats: seq<Beat>, b: Beat)
    requires GoodRun(rule, beats) && Fits(Run(rule, map[], beats), b) && NotBefore(beats, b.now)
    ensures GoodRun(rule, beats + [b]) && Run(rule, map[], beats + [b]) == Step(Run(rule, map[], beats), b)
  {
    hide Step, Rising, Reportable, HonestBatch, OneWindow, HonestRun;
    assert (beats + [b])[..|beats|] == beats;
    OneWindowExtend(rule, beats, b);
    HonestExtend(rule, beats, b);
  }

  lemma {:induction false} OneWindowExtend(rule: Row, beats: seq<Beat>, b: Beat)
    requires OneWindow(rule, map[], beats) && Reportable(b.values)
    requires Rising(Get(Run(rule, map[], beats).paid, b.dp), b.values)
    ensures OneWindow(rule, map[], beats + [b])
  {
    hide Run, Rising, Reportable;
    var all := beats + [b];
    assert all[..|beats|] == beats;
    assert forall i :: 0 <= i < |beats| ==> all[..i] == beats[..i] && all[i] == beats[i];
  }

  lemma {:induction false} HonestExtend(rule: Row, beats: seq<Beat>, b: Beat)
    requires HonestRun(rule, beats) && HonestBeat(Run(rule, map[], beats), b) && NotBefore(beats, b.now)
    ensures HonestRun(rule, beats + [b])
  {
    hide Run, HonestBeat;
    var all := beats + [b];
    assert all[..|beats|] == beats;
    assert forall i :: 0 <= i < |beats| ==> all[..i] == beats[..i] && all[i] == beats[i];
  }

  /** What a row with known spend and no live reservation grants. */
  lemma {:induction false} GrantWithout(l: Row, now: int, seen: Clock, dp: string, v: int)
    requires ValidRow(l) && Reserved(l, now, seen, dp) == map[] && Total(l.spent) == v && 0 <= v <= l.limit
    ensures GrantedAllowance(l, now, seen, dp) == Get(l.spent, dp) + Min(l.grant, l.limit - v)
  {
    SaturatedIsTotal(l.spent);
    SaturatedIsTotal(Reserved(l, now, seen, dp));
  }

  /** Just over the time after which a silent holder no longer counts as live. */
  function Gap(rule: Row): int {
    3 * rule.renew + 1
  }

  /** Nobody but `d` can be live at `t` or later. */
  ghost predicate OthersLapsed(rule: Row, seen: Clock, d: string, t: int) {
    forall e :: e in seen && e != d ==> seen[e] + Gap(rule) <= t
  }

  lemma {:induction false} NoneReserved(rule: Row, l: Row, seen: Clock, d: string, t: int)
    requires OthersLapsed(rule, seen, d, t) && l.renew == rule.renew
    ensures Reserved(l, t, seen, d) == map[]
  {
  }

  // ---- planes that take a grant and fall silent -----------------------------------------------------

  function IdleName(j: nat): string {
    seq(j + 1, _ => 'p')
  }

  const MAIN: string := "main"
  const NEXT: string := "next"

  lemma {:induction false} NamesDiffer(j: nat, k: nat)
    ensures IdleName(j) == IdleName(k) ==> j == k
    ensures IdleName(j) != MAIN && IdleName(j) != ""
  {
    assert |IdleName(j)| == j + 1 && |IdleName(k)| == k + 1;
    assert IdleName(j)[0] == 'p' && MAIN[0] == 'm';
  }

  function IdleGrants(rule: Row, m: nat): map<string, int> {
    if m == 0 then map[] else IdleGrants(rule, m - 1)[IdleName(m - 1) := rule.grant]
  }

  /** One new plane after the other, each heard just after the lease of the one before has lapsed. */
  function IdleBeats(rule: Row, m: nat): seq<Beat> {
    if m == 0 then [] else IdleBeats(rule, m - 1) + [Beat(IdleName(m - 1), [], Times(Gap(rule), m - 1))]
  }

  lemma {:induction false} IdleFacts(rule: Row, m: nat, d: string)
    ensures d in IdleGrants(rule, m) ==> IdleGrants(rule, m)[d] == rule.grant
    ensures (d == MAIN || exists k: nat :: k >= m && d == IdleName(k)) ==> d !in IdleGrants(rule, m)
  {
    if m > 0 {
      IdleFacts(rule, m - 1, d);
      NamesDiffer(m - 1, m - 1);
      if k: nat :| k >= m && d == IdleName(k) {
        NamesDiffer(m - 1, k);
        assert k >= m - 1 && d == IdleName(k);
      }
    }
  }

  /** Nothing spent, everybody's lease lapsed; planes may have been pruned on the way. */
  ghost predicate AfterIdle(f: Fleet, rule: Row, m: nat) {
    && f.row == rule.(allowance := f.row.allowance) && InRange(f.row.allowance)
    && OthersLapsed(rule, f.seen, "", Times(Gap(rule), m)) && "" !in f.seen
    && f.peak == IdleGrants(rule, m) && f.overrun == 0 && f.paid == map[] && f.forgotten == 0
  }

  lemma {:induction false} IdleStep(f: Fleet, rule: Row, m: nat)
    requires Usable(rule) && AfterIdle(f, rule, m)
    ensures var b := Beat(IdleName(m), [], Times(Gap(rule), m));
            AfterIdle(Step(f, b), rule, m + 1) && Fits(f, b)
  {
    hide Total, Headroom, Step, IdleName, GrantedAllowance, BatchOverrun, Stale, AbsorbValues, FreshRule, Dropped;
    var d, now := IdleName(m), Times(Gap(rule), m);
    NamesDiffer(m, m);
    IdleFacts(rule, m, d);
    assert d !in IdleGrants(rule, m);
    LimitFits(rule);
    EmptySpend(rule);
    TimesGrow(Gap(rule), m, m + 1);
    BeatSplits(f, Beat(d, [], now));
    AbsorbNone(f.row, d);
    var clock := f.seen[d := now];
    NothingSpent(f.row, Stale(clock, now));
    var l := DropPlanes(f.row, Stale(clock, now));
    IdleGranted(rule, l, clock - Stale(clock, now), d, now);
    NoOverrun(0, Get(f.peak, d), []);
  }

  lemma {:induction false} AbsorbNone(l: Row, d: string)
    ensures AbsorbValues(l, d, []) == l
  {
  }

  /** A new plane is granted a whole grant. */
  lemma {:induction false} IdleGranted(rule: Row, l: Row, seen: Clock, d: string, t: int)
    requires Usable(rule) && l == rule.(allowance := l.allowance) && InRange(l.allowance)
    requires OthersLapsed(rule, seen, d, t)
    ensures GrantedAllowance(l, t, seen, d) == rule.grant
  {
    hide Total, GrantedAllowance;
    NoneReserved(rule, l, seen, d, t);
    EmptyTotal();
    GrantWithout(l, t, seen, d, 0);
  }

  lemma {:induction false} NothingSpent(l: Row, dead: set<string>)
    requires l.spent == map[]
    ensures DropPlanes(l, dead).spent == map[] && Dropped(l, dead) == 0
  {
    assert l.spent - dead == map[];
  }

  /** Reports within the largest allowance so far overrun nothing. */
  lemma {:induction false} NoOverrun(had: int, most: int, vs: seq<int>)
    requires |vs| <= 1 && forall i :: 0 <= i < |vs| ==> vs[i] <= Max(had, most)
    ensures BatchOverrun(had, most, vs) == 0
  {
    if vs != [] {
      assert vs[..|vs| - 1] == [];
    }
  }

  lemma {:induction false} IdleStart(rule: Row)
    requires Usable(rule)
    ensures AfterIdle(Run(rule, map[], []), rule, 0) && GoodRun(rule, [])
  {
  }

  lemma {:induction false} IdleRun(rule: Row, m: nat)
    requires Usable(rule)
    ensures AfterIdle(Run(rule, map[], IdleBeats(rule, m)), rule, m) && GoodRun(rule, IdleBeats(rule, m))
    ensures NotBefore(IdleBeats(rule, m), Times(Gap(rule), m))
  {
    hide Step, Fits, AfterIdle, GoodRun, IdleName, Run;
    if m == 0 {
      IdleStart(rule);
    } else {
      LimitFits(rule);
      TimesGrow(Gap(rule), m - 1, m);
      IdleRun(rule, m - 1);
      var b := Beat(IdleName(m - 1), [], Times(Gap(rule), m - 1));
      RunOneMore(rule, IdleBeats(rule, m - 1), b);
      IdleStep(Run(rule, map[], IdleBeats(rule, m - 1)), rule, m - 1);
      GoodExtend(rule, IdleBeats(rule, m - 1), b);
    }
  }

  lemma {:induction false} IdleTotal(rule: Row, m: nat)
    ensures Total(IdleGrants(rule, m)) == Times(rule.grant, m) && |IdleGrants(rule, m)| == m
  {
    hide IdleName, Total;
    if m == 0 {
      EmptyTotal();
    } else {
      IdleTotal(rule, m - 1);
      IdleFacts(rule, m - 1, IdleName(m - 1));
      TotalUpdate(IdleGrants(rule, m - 1), IdleName(m - 1), rule.grant);
      SizeUpdate(IdleGrants(rule, m - 1), IdleName(m - 1), rule.grant);
    }
  }

  // ---- one plane that spends its way to the limit ---------------------------------------------------

  /** What the spending plane has been allowed after its j-th heartbeat, which reports the step before. */
  function Rung(rule: Row, j: nat): int {
    Min(Times(rule.grant, j), rule.limit)
  }

  lemma {:induction false} RungStep(rule: Row, j: nat)
    requires Usable(rule)
    ensures 0 <= Rung(rule, j) <= Rung(rule, j + 1) <= rule.limit && Rung(rule, 0) == 0
    ensures Rung(rule, j + 1) == Rung(rule, j) + Min(rule.grant, rule.limit - Rung(rule, j))
  {
    TimesGrow(rule.grant, j, j + 1);
  }

  lemma {:induction false} TopRung(rule: Row, j: nat)
    requires Usable(rule) && rule.limit <= j
    ensures Rung(rule, j) == rule.limit
  {
    TimesGrow(rule.grant, 0, j);
  }

  /** Who climbs, when, and what everybody before it left behind. */
  datatype Base = Base(d: string, t: int, peak: map<string, int>, paid: map<string, int>, forgotten: int)

  ghost predicate Based(b: Base) {
    b.d != "" && b.d !in b.peak && b.d !in b.paid
  }

  /** After j reports of the climbing plane. */
  ghost predicate AfterClimb(f: Fleet, rule: Row, b: Base, j: nat)
    requires j > 0
  {
    && f.row == rule.(spent := map[b.d := Rung(rule, j - 1)], allowance := f.row.allowance) && InRange(f.row.allowance)
    && b.d in f.row.allowance && f.row.allowance[b.d] == Rung(rule, j)
    && b.d in f.seen && f.seen[b.d] == b.t && OthersLapsed(rule, f.seen, b.d, b.t)
    && f.peak == b.peak[b.d := Rung(rule, j)] && f.paid == b.paid[b.d := Rung(rule, j - 1)]
    && f.overrun == 0 && f.forgotten == b.forgotten
  }

  /** Absorbing the one report of a plane nobody else has reported beside. */
  lemma {:induction false} AbsorbReport(l: Row, d: string, v: int)
    requires l.spent.Keys <= {d} && Get(l.spent, d) <= v
    ensures AbsorbValues(l, d, [v]) == l.(spent := map[d := v])
  {
    assert [v][..0] == [];
    assert l.spent[d := v] == map[d := v];
  }

  /** One report is honest if it is within a live allowance, or not above what is on record. */
  lemma {:induction false} HonestReport(l: Row, now: int, seen: Clock, d: string, v: int)
    requires v <= Get(l.spent, d) || (Live(l, now, seen, d) && v <= Get(l.allowance, d))
    ensures HonestBatch(l, now, seen, d, [v])
  {
    assert [v][..0] == [] && AbsorbValues(l, d, []) == l;
  }

  /** Pruning others drops no spend when only `d` has any. */
  lemma {:induction false} PruneOthers(l: Row, d: string, dead: set<string>)
    requires l.spent.Keys <= {d} && d !in dead
    ensures DropPlanes(l, dead).spent == l.spent && Dropped(l, dead) == 0
  {
    assert l.spent - dead == l.spent;
  }

  /** The grant of a report that leaves `d` with v on record and everybody else lapsed. */
  lemma {:induction false} ClimbGranted(rule: Row, l: Row, seen: Clock, d: string, t: int, j: nat)
    requires Usable(rule) && l == rule.(spent := map[d := Rung(rule, j)], allowance := l.allowance)
    requires InRange(l.allowance)
    requires OthersLapsed(rule, seen, d, t)
    ensures GrantedAllowance(l, t, seen, d) == Rung(rule, j + 1)
  {
    hide Total, Rung, GrantedAllowance;
    RungStep(rule, j);
    SoleTotal(d, Rung(rule, j));
    NoneReserved(rule, l, seen, d, t);
    GrantWithout(l, t, seen, d, Rung(rule, j));
  }

  /** A climbing step after its report has been absorbed: prune and grant. */
  lemma {:induction false} ClimbRest(g: Fleet, rule: Row, b: Base, j: nat)
    requires Usable(rule) && Based(b) && b.d in g.peak && Stale(g.seen, b.t) !! {b.d}
    requires g.row == rule.(spent := map[b.d := Rung(rule, j)], allowance := g.row.allowance)
    requires InRange(g.row.allowance)
    requires b.d in g.seen && g.seen[b.d] == b.t && OthersLapsed(rule, g.seen, b.d, b.t)
    requires g.peak == b.peak[b.d := g.peak[b.d]] && g.peak[b.d] <= Rung(rule, j + 1)
    requires g.paid == b.paid[b.d := Rung(rule, j)] && g.overrun == 0 && g.forgotten == b.forgotten
    ensures AfterClimb(Leased(Pruned(g, Stale(g.seen, b.t)), b.t, b.d), rule, b, j + 1)
  {
    hide Total, Rung, GrantedAllowance, Stale, Dropped, FreshRule;
    var dead := Stale(g.seen, b.t);
    PruneOthers(g.row, b.d, dead);
    var p := Pruned(g, dead);
    RungStep(rule, j);
    ClimbGranted(rule, p.row, p.seen, b.d, b.t, j);
    LimitFits(rule);
    assert g.peak[b.d := Rung(rule, j + 1)] == b.peak[b.d := Rung(rule, j + 1)];
  }

  lemma {:induction false} LimitFits(rule: Row)
    requires Usable(rule)
    ensures rule.limit <= MAX_INT64 && !rule.routingOnly && 0 <= rule.renew
  {
  }

  lemma {:induction false} ClimbStep(f: Fleet, rule: Row, b: Base, j: nat)
    requires Usable(rule) && Based(b) && j > 0 && AfterClimb(f, rule, b, j)
    ensures var beat := Beat(b.d, [Rung(rule, j)], b.t);
            AfterClimb(Step(f, beat), rule, b, j + 1) && Fits(f, beat)
  {
    hide Total, Rung, AbsorbValues, BatchOverrun, Step, Leased, Pruned, FreshRule, Stale;
    var v := Rung(rule, j);
    var beat := Beat(b.d, [v], b.t);
    RungStep(rule, j);
    RungStep(rule, j - 1);
    LimitFits(rule);
    BeatSplits(f, beat);
    AbsorbReport(f.row, b.d, v);
    NoOverrun(Get(f.paid, b.d), Get(f.peak, b.d), [v]);
    HonestReport(f.row, b.t, f.seen, b.d, v);
    var g := Absorbed(f, b.d, [v]).(seen := f.seen[b.d := b.t]);
    NotStale(g.seen, b.d, b.t);
    assert g.peak == b.peak[b.d := g.peak[b.d]];
    assert g.paid == b.paid[b.d := v];
    ClimbRest(g, rule, b, j);
  }

  lemma {:induction false} NotStale(seen: Clock, d: string, t: int)
    requires d in seen && seen[d] == t
    ensures d !in Stale(seen, t)
  {
  }

  // ---- attaining the bound --------------------------------------------------------------------------

  function IdleBase(rule: Row, m: nat): Base {
    Base(MAIN, Times(Gap(rule), m), IdleGrants(rule, m), map[], 0)
  }

  function ClimbBeats(rule: Row, m: nat, j: nat): seq<Beat> {
    if j == 0 then IdleBeats(rule, m)
    else ClimbBeats(rule, m, j - 1) + [Beat(MAIN, [Rung(rule, j - 1)], Times(Gap(rule), m))]
  }

  /** The first report of the spending plane, after the silent ones. */
  lemma {:induction false} ClimbFirst(f: Fleet, rule: Row, m: nat)
    requires Usable(rule) && AfterIdle(f, rule, m)
    ensures var beat := Beat(MAIN, [Rung(rule, 0)], Times(Gap(rule), m));
            AfterClimb(Step(f, beat), rule, IdleBase(rule, m), 1) && Fits(f, beat)
  {
    hide Total, Rung, AbsorbValues, BatchOverrun, Step, Leased, Pruned, FreshRule, Stale, IdleGrants;
    var b := IdleBase(rule, m);
    var beat := Beat(MAIN, [Rung(rule, 0)], b.t);
    RungStep(rule, 0);
    LimitFits(rule);
    IdleFacts(rule, m, MAIN);
    BeatSplits(f, beat);
    EmptySpend(rule);
    AbsorbReport(f.row, MAIN, 0);
    NoOverrun(Get(f.paid, MAIN), Get(f.peak, MAIN), [0]);
    HonestReport(f.row, b.t, f.seen, MAIN, 0);
    var g := Absorbed(f, MAIN, [0]).(seen := f.seen[MAIN := b.t]);
    NotStale(g.seen, MAIN, b.t);
    assert g.peak == b.peak[MAIN := 0] && g.paid == b.paid[MAIN := 0];
    ClimbRest(g, rule, b, 0);
  }

  lemma {:induction false} EmptySpend(rule: Row)
    requires Usable(rule)
    ensures rule.spent == map[] && rule.allowance == map[]
  {
  }

  lemma {:induction false} ClimbRun(rule: Row, m: nat, j: nat)
    requires Usable(rule) && j > 0
    ensures AfterClimb(Run(rule, map[], ClimbBeats(rule, m, j)), rule, IdleBase(rule, m), j)
    ensures GoodRun(rule, ClimbBeats(rule, m, j))
    ensures NotBefore(ClimbBeats(rule, m, j), Times(Gap(rule), m))
  {
    hide Step, Fits, Rung, AfterClimb, AfterIdle, GoodRun, Run;
    IdleFacts(rule, m, MAIN);
    var beat := Beat(MAIN, [Rung(rule, j - 1)], Times(Gap(rule), m));
    if j == 1 {
      IdleRun(rule, m);
      ClimbFirst(Run(rule, map[], IdleBeats(rule, m)), rule, m);
    } else {
      ClimbRun(rule, m, j - 1);
      ClimbStep(Run(rule, map[], ClimbBeats(rule, m, j - 1)), rule, IdleBase(rule, m), j - 1);
    }
    GoodExtend(rule, ClimbBeats(rule, m, j - 1), beat);
  }

  /**
   The run that attains the bound for n planes: n - 1 that take a grant and fall silent, and one that spends to
   the limit.
   */
  function Extremal(rule: Row, n: nat): seq<Beat>
    requires 0 < n && 0 < rule.limit
  {
    ClimbBeats(rule, n - 1, rule.limit)
  }

  /**
   The bound is attained, by honest reports and with nothing forgotten, by every number of planes and for every
   grant up to the limit.
   */
  lemma {:induction false} CeilingIsAttained(rule: Row, n: nat)
    requires FreshRule(rule) && 0 < rule.grant <= rule.limit && 0 < n
    ensures var f := Run(rule, map[], Extremal(rule, n));
            && GoodRun(rule, Extremal(rule, n))
            && |f.peak| == n && f.overrun == 0 && f.forgotten == 0
            && Total(Claim(f.paid, f.peak)) == rule.limit + rule.grant * (n - 1)
  {
    hide Step, GoodRun, IdleGrants, Rung, Total, Run;
    var m, j := n - 1, rule.limit;
    TimesIsProduct(rule.grant, m);
    ClimbRun(rule, m, j);
    var f := Run(rule, map[], Extremal(rule, n));
    TopRung(rule, j);
    RungStep(rule, j - 1);
    IdleFacts(rule, m, MAIN);
    IdleTotal(rule, m);
    TotalUpdate(IdleGrants(rule, m), MAIN, rule.limit);
    SizeUpdate(IdleGrants(rule, m), MAIN, rule.limit);
    forall d | d in f.peak
      ensures Max(Get(f.paid, d), f.peak[d]) == f.peak[d]
    {
      IdleFacts(rule, m, d);
    }
    assert Claim(f.paid, f.peak) == f.peak;
  }

  // ---- spend that is pruned -------------------------------------------------------------------------

  // Past the prune horizon of a plane last heard at time zero.
  const LATE: int := PRUNE_AFTER + 1

  function NextBase(rule: Row): Base {
    Base(NEXT, LATE, map[MAIN := rule.limit], map[MAIN := rule.limit], rule.limit)
  }

  /** One plane spends the whole limit and falls silent; a day later another one starts. */
  function ForgetBeats(rule: Row, j: nat): seq<Beat>
    requires 0 < rule.limit
  {
    if j == 0 then ClimbBeats(rule, 0, rule.limit + 1) else ForgetBeats(rule, j - 1) + [Beat(NEXT, [Rung(rule, j - 1)], LATE)]
  }

  /**
   The late plane's first heartbeat prunes the one that spent the limit, and is granted as if nothing had been
   spent.
   */
  lemma {:induction false} ForgetFirst(f: Fleet, rule: Row)
    requires Usable(rule) && AfterClimb(f, rule, IdleBase(rule, 0), rule.limit + 1) && f.seen.Keys == {MAIN}
    ensures var beat := Beat(NEXT, [Rung(rule, 0)], LATE);
            AfterClimb(Step(f, beat), rule, NextBase(rule), 1) && Fits(f, beat)
  {
    hide Total, Rung, BatchOverrun, Step, FreshRule, GrantedAllowance, AbsorbValues, Leased, Stale;
    RungStep(rule, 0);
    TopRung(rule, rule.limit);
    TopRung(rule, rule.limit + 1);
    LimitFits(rule);
    var t := LATE;
    var beat := Beat(NEXT, [0], t);
    BeatSplits(f, beat);
    NoOverrun(Get(f.paid, NEXT), Get(f.peak, NEXT), [0]);
    HonestReport(f.row, t, f.seen, NEXT, 0);
    AbsorbShape(f.row, NEXT, [0]);
    AbsorbElse(f.row, NEXT, 0);
    var clock := f.seen[NEXT := t];
    OnlyMainStale(f.seen, t);
    var g := Absorbed(f, NEXT, [0]).(seen := clock);
    ForgetsLimit(g.row, rule.limit);
    ForgetRest(Pruned(g, {MAIN}), rule);
  }

  lemma {:induction false} AbsorbElse(l: Row, d: string, v: int)
    requires Get(l.spent, d) <= v
    ensures AbsorbValues(l, d, [v]) == l.(spent := l.spent[d := v])
  {
    assert [v][..0] == [];
  }

  lemma {:induction false} OnlyMainStale(seen: Clock, t: int)
    requires seen.Keys == {MAIN} && seen[MAIN] == 0 && t == PRUNE_AFTER + 1
    ensures Stale(seen[NEXT := t], t) == {MAIN}
  {
  }

  lemma {:induction false} ForgetsLimit(l: Row, limit: int)
    requires l.spent == map[MAIN := limit][NEXT := 0]
    ensures Dropped(l, {MAIN}) == limit && DropPlanes(l, {MAIN}).spent == map[NEXT := 0]
  {
    assert l.spent - {MAIN} == map[NEXT := 0];
    SoleTotal(NEXT, 0);
    SoleTotal(MAIN, limit);
    TotalUpdate(map[MAIN := limit], NEXT, 0);
  }

  /** With the big spender off the books, the newcomer starts the same climb. */
  lemma {:induction false} ForgetRest(p: Fleet, rule: Row)
    requires Usable(rule) && p.row == rule.(spent := map[NEXT := 0], allowance := p.row.allowance)
    requires InRange(p.row.allowance)
    requires p.seen == map[NEXT := LATE] && p.peak == map[MAIN := rule.limit][NEXT := 0]
    requires p.paid == map[MAIN := rule.limit][NEXT := 0] && p.overrun == 0 && p.forgotten == rule.limit
    ensures AfterClimb(Leased(p, LATE, NEXT), rule, NextBase(rule), 1)
  {
    hide Total, Rung, GrantedAllowance, FreshRule;
    RungStep(rule, 0);
    LimitFits(rule);
    ClimbGranted(rule, p.row, p.seen, NEXT, LATE, 0);
  }

  lemma {:induction false} LoneSeen(rule: Row, j: nat)
    requires Usable(rule) && j > 0
    ensures Run(rule, map[], ClimbBeats(rule, 0, j)).seen.Keys == {MAIN}
  {
    hide Rung, BeatRow, BatchOverrun, Dropped;
    var front, b := ClimbBeats(rule, 0, j - 1), Beat(MAIN, [Rung(rule, j - 1)], 0);
    assert (front + [b])[..|front|] == front;
    if j > 1 {
      LoneSeen(rule, j - 1);
    }
    var f := Run(rule, map[], front);
    NotStale(f.seen[MAIN := 0], MAIN, 0);
  }

  lemma {:induction false} ForgetRun(rule: Row, j: nat)
    requires Usable(rule) && j > 0
    ensures AfterClimb(Run(rule, map[], ForgetBeats(rule, j)), rule, NextBase(rule), j) && GoodRun(rule, ForgetBeats(rule, j))
    ensures NotBefore(ForgetBeats(rule, j), LATE)
  {
    hide Step, Fits, Rung, AfterClimb, GoodRun, Run;
    var beat := Beat(NEXT, [Rung(rule, j - 1)], LATE);
    if j == 1 {
      ClimbRun(rule, 0, rule.limit + 1);
      LoneSeen(rule, rule.limit + 1);
      ForgetFirst(Run(rule, map[], ClimbBeats(rule, 0, rule.limit + 1)), rule);
    } else {
      ForgetRun(rule, j - 1);
      ClimbStep(Run(rule, map[], ForgetBeats(rule, j - 1)), rule, NextBase(rule), j - 1);
    }
    GoodExtend(rule, ForgetBeats(rule, j - 1), beat);
  }

  /**
   Pruned spend is promised again: an honest run within one window in which two planes spend the whole limit
   each. Nothing overran what was allowed, yet for every grant below the limit the fleet is past the limit plus
   one grant for every plane but one.
   */
  lemma {:induction false} PrunedSpendIsPromisedAgain(rule: Row)
    requires FreshRule(rule) && 0 < rule.grant <= rule.limit
    ensures var beats := ForgetBeats(rule, rule.limit + 1);
            var f := Run(rule, map[], beats);
            && GoodRun(rule, beats) && f.overrun == 0 && |f.peak| == 2
            && Total(f.paid) == 2 * rule.limit && f.forgotten == rule.limit
            && (rule.grant < rule.limit ==> Total(f.paid) > rule.limit + rule.grant * (|f.peak| - 1) + f.overrun)
  {
    hide Step, GoodRun, Rung, Total, Run;
    var f := Run(rule, map[], ForgetBeats(rule, rule.limit + 1));
    ForgetRun(rule, rule.limit + 1);
    TopRung(rule, rule.limit);
    TopRung(rule, rule.limit + 1);
    SoleTotal(MAIN, rule.limit);
    TotalUpdate(map[MAIN := rule.limit], NEXT, rule.limit);
    SizeUpdate(map[MAIN := rule.limit], NEXT, rule.limit);
    assert |map[MAIN := rule.limit]| == 1 by {
      SizeUpdate(map[], MAIN, rule.limit);
      assert map[][MAIN := rule.limit] == map[MAIN := rule.limit];
    }
  }

  // ---- one more request per renewal -----------------------------------------------------------------

  const OTHER: string := "p"

  /**
   One plane takes a grant, another one spends the whole limit; then the first comes back and reports one
   request of cost `c` after each renewal.
   */
  function Creep(rule: Row, c: int, k: nat): seq<Beat>
    requires 0 < rule.limit
  {
    if k == 0 then ClimbBeats(rule, 1, rule.limit + 1) else Creep(rule, c, k - 1) + [Beat(OTHER, [Times(c, k)], Gap(rule))]
  }

  ghost predicate Creeping(f: Fleet, rule: Row, c: int, k: nat) {
    && f.row == rule.(spent := f.row.spent, allowance := f.row.allowance) && ValidRow(f.row)
    && MAIN in f.seen && f.seen[MAIN] == Gap(rule)
    && f.row.spent == (if k == 0 then map[MAIN := rule.limit] else map[MAIN := rule.limit][OTHER := Times(c, k)])
    && (k > 0 ==> Get(f.row.allowance, OTHER) == Times(c, k))
  }

  /** With the limit spent elsewhere, a renewal allows exactly what the plane has spent. */
  lemma {:induction false} CreepGranted(l: Row, now: int, seen: Clock, v: int)
    requires ValidRow(l) && l.spent == map[MAIN := l.limit][OTHER := v] && 0 <= v
    ensures GrantedAllowance(l, now, seen, OTHER) == v && Total(l.spent) == l.limit + v
  {
    SoleTotal(MAIN, l.limit);
    TotalUpdate(map[MAIN := l.limit], OTHER, v);
    SaturatedIsTotal(l.spent);
    SaturatedIsTotal(Reserved(l, now, seen, OTHER));
    TotalNonNegative(Reserved(l, now, seen, OTHER));
  }

  lemma {:induction false} CreepStep(f: Fleet, rule: Row, c: int, k: nat)
    requires Usable(rule) && 0 < c && Creeping(f, rule, c, k) && Times(c, k + 1) <= MAX_INT64
    ensures Creeping(Step(f, Beat(OTHER, [Times(c, k + 1)], Gap(rule))), rule, c, k + 1)
  {
    hide Total, BatchOverrun, Step, FreshRule, GrantedAllowance, Dropped, AbsorbValues;
    var v, t := Times(c, k + 1), Gap(rule);
    TimesGrow(c, k, k + 1);
    LimitFits(rule);
    var b := Beat(OTHER, [v], t);
    BeatSplits(f, b);
    BeatKeepsValid(f.row, OTHER, [v], f.seen, t);
    AbsorbShape(f.row, OTHER, [v]);
    AbsorbKeepsValid(f.row, OTHER, [v]);
    var clock := f.seen[OTHER := t];
    var l := DropPlanes(AbsorbValues(f.row, OTHER, [v]), Stale(clock, t));
    NotStale(clock, MAIN, t);
    NotStale(clock, OTHER, t);
    assert f.row.spent[OTHER := v] == map[MAIN := rule.limit][OTHER := v];
    assert l.spent == map[MAIN := rule.limit][OTHER := v];
    CreepGranted(l, t, clock - Stale(clock, t), v);
  }

  lemma {:induction false} CreepStart(f: Fleet, rule: Row, c: int)
    requires Usable(rule) && AfterClimb(f, rule, IdleBase(rule, 1), rule.limit + 1)
    ensures Creeping(f, rule, c, 0)
  {
    hide Rung;
    TopRung(rule, rule.limit);
    assert Times(Gap(rule), 1) == Gap(rule) by { TimesIsProduct(Gap(rule), 1); }
  }

  lemma {:induction false} RunOneMore(rule: Row, beats: seq<Beat>, b: Beat)
    ensures Run(rule, map[], beats + [b]) == Step(Run(rule, map[], beats), b)
  {
    hide Step;
    assert (beats + [b])[..|beats|] == beats;
  }

  lemma {:induction false} CreepRun(rule: Row, c: int, k: nat)
    requires Usable(rule) && 0 < c && Times(c, k) <= MAX_INT64
    ensures Creeping(Run(rule, map[], Creep(rule, c, k)), rule, c, k)
  {
    hide Step, Run, Creeping, AfterClimb, GoodRun, Rung, ClimbBeats;
    if k == 0 {
      ClimbRun(rule, 1, rule.limit + 1);
      CreepStart(Run(rule, map[], ClimbBeats(rule, 1, rule.limit + 1)), rule, c);
    } else {
      TimesGrow(c, k - 1, k);
      CreepRun(rule, c, k - 1);
      var front := Creep(rule, c, k - 1);
      RunOneMore(rule, front, Beat(OTHER, [Times(c, k)], Gap(rule)));
      CreepStep(Run(rule, map[], front), rule, c, k - 1);
    }
  }

  /**
   Why reports can overrun: once the limit is spent, every renewal answers a plane with an allowance equal to its
   own spend, which the gate and the admission test let pass. For every k, a plane that reports one request
   of cost `c` after each of k renewals has taken the fleet k requests past the limit, and is refused right after
   that renewal exactly when the cap is hard and its own spend alone is past the limit.
   */
  lemma {:induction false} ExhaustedPlaneCreeps(rule: Row, c: int, k: nat, t: int)
    requires FreshRule(rule) && 0 < rule.grant <= rule.limit && 0 < c && 0 < k && c * k <= MAX_INT64
    requires Gap(rule) <= t <= Gap(rule) + 3 * rule.renew
    ensures var row := Run(rule, map[], Creep(rule, c, k)).row;
            && SpentTotal(row) == rule.limit + c * k
            && (RefusedUnder(row, OTHER, Gap(rule), t) <==> rule.hard && c * k > rule.limit)
  {
    hide Step, Run, Total, FreshRule;
    TimesIsProduct(c, k);
    TimesGrow(c, 1, k);
    assert Usable(rule);
    CreepRun(rule, c, k);
    var row := Run(rule, map[], Creep(rule, c, k)).row;
    CreepGranted(row, 0, map[], Times(c, k));
  }
}
