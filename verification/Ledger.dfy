/**
 The control plane's budget-lease ledger: one row per budget rule, holding for every data plane the
 cumulative spend it reported and the cumulative allowance it was granted. `Server` is the mutable
 state behind the heartbeat endpoint; the ghost functions give each step its meaning on values, and the
 theorems about whole runs are stated over those.
 */
module Ledger {
  import opened Periods
  import opened Ints
  import opened Options
  import opened Sums

  // Nanoseconds after which a silent data plane loses its rows (24 hours).
  const PRUNE_AFTER: int := 86_400_000_000_000

  datatype RuleKey = RuleKey(policy: string, rule: string)

  datatype Row = Row(
    team: string,
    limit: int,
    grant: int,
    renew: int,
    hard: bool,
    period: Period,
    routingOnly: bool,
    spent: map<string, int>,
    allowance: map<string, int>)

  type Rows = map<RuleKey, Row>
  type Clock = map<string, int>   // data plane -> time of its last heartbeat

  predicate InRange(m: map<string, int>) {
    forall d :: d in m ==> 0 <= m[d] <= MAX_INT64
  }

  predicate ValidRow(l: Row) {
    && 0 < l.limit <= MAX_INT64
    && 0 <= l.grant <= MAX_INT64
    && 0 <= l.renew
    && InRange(l.spent)
    && InRange(l.allowance)
  }

  predicate ValidRows(rows: Rows) {
    forall k :: k in rows ==> ValidRow(rows[k])
  }

  /** Reading a missing key of a Go map yields zero. */
  function Get(m: map<string, int>, d: string): int {
    if d in m then m[d] else 0
  }

  /** Saturating accounting: an unknown or overflowing amount reads as everything. */
  function AddAccounting(a: int, b: int): int {
    if a < 0 || b < 0 || a > MAX_INT64 - b then MAX_INT64 else a + b
  }

  /** What folding `AddAccounting` over a map computes, in whatever order the keys come. */
  ghost function SaturatedTotal(m: map<string, int>): int {
    if exists d :: d in m && m[d] < 0 then MAX_INT64 else Min(Total(m), MAX_INT64)
  }

  /** A holder's lease can still be valid: it is registered and heard from within three renewals. */
  predicate Live(l: Row, now: int, seen: Clock, d: string) {
    d in seen && now - seen[d] <= 3 * l.renew
  }

  /** The granted-but-unreported amounts still reserved at `now`, data plane by data plane. */
  ghost function Reserved(l: Row, now: int, seen: Clock, exclude: string): map<string, int> {
    map d | d in l.allowance && d != exclude && Live(l, now, seen, d) && l.allowance[d] > Get(l.spent, d)
      :: l.allowance[d] - Get(l.spent, d)
  }

  ghost function SpentTotal(l: Row): int {
    Total(l.spent)
  }

  ghost function Outstanding(l: Row, now: int, seen: Clock, exclude: string): int {
    Total(Reserved(l, now, seen, exclude))
  }

  // ---- one heartbeat, seen by one row -------------------------------------------------------------

  /** A lower report means the reporter's window rolled over: its old allowance is dropped with it. */
  function AbsorbValue(l: Row, dp: string, v: int): Row {
    l.(allowance := if v < Get(l.spent, dp) then l.allowance[dp := 0] else l.allowance,
       spent := l.spent[dp := v])
  }

  function AbsorbValues(l: Row, dp: string, vs: seq<int>): (r: Row)
    ensures r == l.(spent := r.spent, allowance := r.allowance)
  {
    if vs == [] then l
    else AbsorbValue(AbsorbValues(l, dp, vs[..|vs| - 1]), dp, vs[|vs| - 1])
  }

  function DropPlanes(l: Row, dead: set<string>): Row {
    l.(spent := l.spent - dead, allowance := l.allowance - dead)
  }

  /** How much the row can still add to `dp`'s cumulative allowance. */
  ghost function Headroom(l: Row, now: int, seen: Clock, dp: string): int {
    var spent := SaturatedTotal(l.spent);
    var outstanding := SaturatedTotal(Reserved(l, now, seen, dp));
    Min(l.grant, if spent < l.limit && outstanding < l.limit - spent then l.limit - spent - outstanding else 0)
  }

  ghost function GrantedAllowance(l: Row, now: int, seen: Clock, dp: string): int {
    Get(l.spent, dp) + Headroom(l, now, seen, dp)
  }

  ghost function Granted(l: Row, now: int, seen: Clock, dp: string): Row {
    if l.routingOnly then l
    else l.(allowance := l.allowance[dp := GrantedAllowance(l, now, seen, dp)])
  }

  ghost function Stale(seen: Clock, now: int): set<string> {
    set d | d in seen && now - seen[d] > PRUNE_AFTER
  }

  /** The whole effect of one accepted heartbeat on one row. */
  ghost function BeatRow(l: Row, dp: string, vs: seq<int>, seen: Clock, now: int): Row {
    var dead := Stale(seen[dp := now], now);
    Granted(DropPlanes(AbsorbValues(l, dp, vs), dead), now, seen[dp := now] - dead, dp)
  }

  ghost function BeatClock(dp: string, seen: Clock, now: int): Clock {
    seen[dp := now] - Stale(seen[dp := now], now)
  }

  // ---- facts about sums ---------------------------------------------------------------------------

  lemma {:induction false} SaturatedIsTotal(m: map<string, int>)
    requires forall d :: d in m ==> 0 <= m[d]
    ensures SaturatedTotal(m) == Min(Total(m), MAX_INT64)
    ensures 0 <= SaturatedTotal(m)
  {
    TotalNonNegative(m);
  }

  /** The entries a scan has visited so far. */
  ghost function Part(m: map<string, int>, done: set<string>): map<string, int> {
    map d | d in done && d in m :: m[d]
  }

  /** One step of a saturating scan over a map, whichever key comes next. */
  lemma {:induction false} SaturatedStep(m: map<string, int>, done: set<string>, d: string, acc: int)
    requires done <= m.Keys && d in m && d !in done
    requires forall j :: j in m ==> m[j] <= MAX_INT64
    requires acc == SaturatedTotal(Part(m, done))
    ensures AddAccounting(acc, m[d]) == SaturatedTotal(Part(m, done + {d}))
  {
    var before, after := Part(m, done), Part(m, done + {d});
    assert after - {d} == before;
    TotalRemove(after, d);
    if j :| j in before && before[j] < 0 {
      assert after[j] < 0;
    } else if m[d] < 0 {
      assert after[d] < 0;
    } else {
      TotalNonNegative(before);
    }
  }

  /**
   What a grant promises: within the limit when it adds anything, as much as the rule grants unless the limit is
   reached, and always an int64.
   */
  lemma {:induction false} GrantFits(l: Row, now: int, seen: Clock, dp: string)
    requires ValidRow(l)
    ensures 0 <= Headroom(l, now, seen, dp) <= l.grant
    ensures Headroom(l, now, seen, dp) > 0 ==>
              SpentTotal(l) + Outstanding(l, now, seen, dp) + Headroom(l, now, seen, dp) <= l.limit
    ensures Headroom(l, now, seen, dp) < l.grant ==>
              SpentTotal(l) + Outstanding(l, now, seen, dp) + Headroom(l, now, seen, dp) >= l.limit
    ensures 0 <= GrantedAllowance(l, now, seen, dp) <= MAX_INT64
    ensures ValidRow(Granted(l, now, seen, dp))
  {
    SaturatedIsTotal(l.spent);
    SaturatedIsTotal(Reserved(l, now, seen, dp));
    TotalNonNegative(Reserved(l, now, seen, dp));
    if dp in l.spent {
      TotalAtLeast(l.spent, dp);
    }
  }

  lemma {:induction false} AbsorbKeepsValid(l: Row, dp: string, vs: seq<int>)
    requires ValidRow(l)
    requires forall i :: 0 <= i < |vs| ==> 0 <= vs[i] <= MAX_INT64
    ensures ValidRow(AbsorbValues(l, dp, vs))
  {
    if vs != [] {
      AbsorbKeepsValid(l, dp, vs[..|vs| - 1]);
    }
  }

  lemma {:induction false} BeatKeepsValid(l: Row, dp: string, vs: seq<int>, seen: Clock, now: int)
    requires ValidRow(l)
    requires forall i :: 0 <= i < |vs| ==> 0 <= vs[i] <= MAX_INT64
    ensures ValidRow(BeatRow(l, dp, vs, seen, now))
    ensures var r := BeatRow(l, dp, vs, seen, now);
            r == l.(spent := r.spent, allowance := r.allowance)
  {
    AbsorbKeepsValid(l, dp, vs);
    var dead := Stale(seen[dp := now], now);
    GrantFits(DropPlanes(AbsorbValues(l, dp, vs), dead), now, seen[dp := now] - dead, dp);
  }

  // ---- a new set of rules -------------------------------------------------------------------------

  /** A leasable budget rule of a distributed document. */
  datatype Definition = Definition(
    key: RuleKey, team: string, limit: int, grant: int, renew: int, hard: bool, period: Period, routingOnly: bool)

  predicate ValidDefinition(d: Definition) {
    0 < d.limit <= MAX_INT64 && 0 <= d.grant <= MAX_INT64 && 0 <= d.renew
  }

  /**
   A rule's row in the new ledger. Spend is carried over when the rule was there with the same period;
   allowances too, unless the budget only switches models now.
   */
  function Carried(rows: Rows, d: Definition): Row {
    var kept := d.key in rows && rows[d.key].period == d.period;
    Row(d.team, d.limit, d.grant, d.renew, d.hard, d.period, d.routingOnly,
        if kept then rows[d.key].spent else map[],
        if kept && !d.routingOnly then rows[d.key].allowance else map[])
  }

  /** The ledger for the first `n` rules; a name that comes twice keeps its later rule. */
  function Rebuilt(rows: Rows, defs: seq<Definition>, n: nat): Rows
    requires n <= |defs|
  {
    if n == 0 then map[] else Rebuilt(rows, defs, n - 1)[defs[n - 1].key := Carried(rows, defs[n - 1])]
  }

  lemma {:induction false} RebuiltKeepsValid(rows: Rows, defs: seq<Definition>, n: nat)
    requires n <= |defs| && ValidRows(rows) && forall i :: 0 <= i < |defs| ==> ValidDefinition(defs[i])
    ensures ValidRows(Rebuilt(rows, defs, n))
  {
    if n > 0 {
      RebuiltKeepsValid(rows, defs, n - 1);
      assert ValidDefinition(defs[n - 1]) && ValidRow(Carried(rows, defs[n - 1]));
    }
  }

  // ---- the heartbeat endpoint ---------------------------------------------------------------------

  type Int64 = x: int | -MAX_INT64 - 1 <= x <= MAX_INT64

  datatype Report = Report(key: RuleKey, spent: Int64, period: Option<Period>)

  datatype SyncRequest = SyncRequest(dataplane: string, reports: seq<Report>)

  datatype LeaseGrant = LeaseGrant(
    key: RuleKey, team: string, allowance: int, expiresAt: int, hard: bool, period: Period)

  datatype SyncReply = BadRequest | Accepted(leases: seq<LeaseGrant>)

  /** A report that names no period was measured against the calendar month. */
  function PeriodOf(p: Option<Period>): Period {
    if p.None? then CalendarMonth else p.value
  }

  /** The reports of a batch that a row of this key and period books, in order. */
  function ValuesFor(reports: seq<Report>, k: RuleKey, period: Period): seq<int> {
    if reports == [] then []
    else
      var rep := reports[|reports| - 1];
      ValuesFor(reports[..|reports| - 1], k, period) +
      (if rep.key == k && PeriodOf(rep.period) == period then [rep.spent] else [])
  }

  predicate WellFormed(req: SyncRequest) {
    req.dataplane != "" && forall i :: 0 <= i < |req.reports| ==> 0 <= req.reports[i].spent
  }

  ghost function AbsorbRows(rows: Rows, dp: string, reports: seq<Report>): Rows {
    map k | k in rows :: AbsorbValues(rows[k], dp, ValuesFor(reports, k, rows[k].period))
  }

  ghost function BeatRows(rows: Rows, req: SyncRequest, seen: Clock, now: int): Rows {
    map k | k in rows :: BeatRow(rows[k], req.dataplane, ValuesFor(req.reports, k, rows[k].period), seen, now)
  }

  function DropAll(rows: Rows, dead: set<string>): Rows {
    map k | k in rows :: DropPlanes(rows[k], dead)
  }

  ghost function GrantSome(rows: Rows, done: set<RuleKey>, now: int, seen: Clock, dp: string): Rows {
    map k | k in rows :: if k in done then Granted(rows[k], now, seen, dp) else rows[k]
  }

  function LeaseOf(k: RuleKey, l: Row, dp: string, now: int): LeaseGrant {
    LeaseGrant(k, l.team, Get(l.allowance, dp), now + 3 * l.renew, l.hard, l.period)
  }

  /** The leases are those of the leasable rules in `done`, each exactly once, in some order. */
  ghost predicate LeasesOf(leases: seq<LeaseGrant>, rows: Rows, done: set<RuleKey>, dp: string, now: int) {
    && (forall i :: 0 <= i < |leases| ==>
          && leases[i].key in done && leases[i].key in rows && !rows[leases[i].key].routingOnly
          && leases[i] == LeaseOf(leases[i].key, rows[leases[i].key], dp, now))
    && (forall i, j :: 0 <= i < j < |leases| ==> leases[i].key != leases[j].key)
    && (forall k :: k in done && k in rows && !rows[k].routingOnly ==>
          exists i :: 0 <= i < |leases| && leases[i].key == k)
  }

  lemma {:induction false} ValuesInRange(reports: seq<Report>, k: RuleKey, period: Period)
    requires forall i :: 0 <= i < |reports| ==> 0 <= reports[i].spent
    ensures forall i :: 0 <= i < |ValuesFor(reports, k, period)| ==>
              0 <= ValuesFor(reports, k, period)[i] <= MAX_INT64
  {
    if reports != [] {
      ValuesInRange(reports[..|reports| - 1], k, period);
    }
  }

  lemma {:induction false} BeatRowsKeepValid(rows: Rows, req: SyncRequest, seen: Clock, now: int)
    requires ValidRows(rows) && WellFormed(req)
    ensures ValidRows(BeatRows(rows, req, seen, now))
  {
    forall k | k in rows
      ensures ValidRow(BeatRows(rows, req, seen, now)[k])
    {
      ValuesInRange(req.reports, k, rows[k].period);
      BeatKeepsValid(rows[k], req.dataplane, ValuesFor(req.reports, k, rows[k].period), seen, now);
    }
  }

  /** One more report of the batch, absorbed by one row. */
  lemma {:induction false} AbsorbOneByRow(l: Row, dp: string, reports: seq<Report>, i: nat, k: RuleKey)
    requires i < |reports|
    ensures var before := AbsorbValues(l, dp, ValuesFor(reports[..i], k, l.period));
            var rep := reports[i];
            AbsorbValues(l, dp, ValuesFor(reports[..i + 1], k, l.period)) ==
            if rep.key == k && PeriodOf(rep.period) == l.period then AbsorbValue(before, dp, rep.spent) else before
  {
    hide AbsorbValue;
    var vs, rep := ValuesFor(reports[..i], k, l.period), reports[i];
    assert reports[..i + 1][..i] == reports[..i];
    if rep.key == k && PeriodOf(rep.period) == l.period {
      assert (vs + [rep.spent])[..|vs|] == vs;
    } else {
      assert vs + [] == vs;
    }
  }

  /** One more report of the batch, absorbed by every row at once. */
  lemma {:induction false} AbsorbOneMore(rows: Rows, dp: string, reports: seq<Report>, i: nat)
    requires i < |reports|
    ensures var before := AbsorbRows(rows, dp, reports[..i]);
            var rep := reports[i];
            AbsorbRows(rows, dp, reports[..i + 1]) ==
            if rep.key in rows && PeriodOf(rep.period) == rows[rep.key].period
            then before[rep.key := AbsorbValue(before[rep.key], dp, rep.spent)]
            else before
  {
    hide AbsorbValue, AbsorbValues, ValuesFor, PeriodOf;
    var before, after := AbsorbRows(rows, dp, reports[..i]), AbsorbRows(rows, dp, reports[..i + 1]);
    forall k | k in rows
      ensures after[k] == if reports[i].key == k && PeriodOf(reports[i].period) == rows[k].period
                          then AbsorbValue(before[k], dp, reports[i].spent) else before[k]
    {
      AbsorbOneByRow(rows[k], dp, reports, i, k);
    }
    assert after.Keys == rows.Keys && before.Keys == rows.Keys;
    hide AbsorbRows;
  }

  lemma {:induction false} GrantNone(rows: Rows, now: int, seen: Clock, dp: string)
    ensures GrantSome(rows, {}, now, seen, dp) == rows && LeasesOf([], rows, {}, dp, now)
  {
  }

  lemma {:induction false} GrantKeys(rows: Rows, done: set<RuleKey>, now: int, seen: Clock, dp: string)
    ensures GrantSome(rows, done, now, seen, dp).Keys == rows.Keys
  {
    hide Granted;
  }

  lemma {:induction false} GrantOneMore(rows: Rows, done: set<RuleKey>, now: int, seen: Clock, dp: string, k: RuleKey)
    requires k in rows && k !in done
    ensures var before := GrantSome(rows, done, now, seen, dp);
            && before.Keys == rows.Keys && before[k] == rows[k]
            && GrantSome(rows, done + {k}, now, seen, dp) == before[k := Granted(rows[k], now, seen, dp)]
            && Granted(rows[k], now, seen, dp).routingOnly == rows[k].routingOnly
  {
    hide GrantedAllowance;
  }

  /** Granting one more row extends the answer by its lease and disturbs none given before. */
  lemma {:induction false} LeasesExtend(leases: seq<LeaseGrant>, rows: Rows, done: set<RuleKey>, k: RuleKey,
                                        l: Row, dp: string, now: int)
    requires LeasesOf(leases, rows, done, dp, now)
    requires k in rows && k !in done && l.routingOnly == rows[k].routingOnly
    ensures LeasesOf(if l.routingOnly then leases else leases + [LeaseOf(k, l, dp, now)],
                     rows[k := l], done + {k}, dp, now)
  {
    var more := if l.routingOnly then leases else leases + [LeaseOf(k, l, dp, now)];
    forall j | j in done + {k} && j in rows[k := l] && !rows[k := l][j].routingOnly
      ensures exists i :: 0 <= i < |more| && more[i].key == j
    {
      if j == k {
        assert more[|leases|].key == k;
      } else {
        var i :| 0 <= i < |leases| && leases[i].key == j;
        assert more[i].key == j;
      }
    }
  }

  method SumSpent(m: map<string, int>) returns (spent: int)
    requires forall d :: d in m ==> m[d] <= MAX_INT64
    ensures spent == SaturatedTotal(m)
  {
    spent := 0;
    var todo := m.Keys;
    assert Part(m, m.Keys - todo) == map[];
    while todo != {}
      invariant todo <= m.Keys
      invariant spent == SaturatedTotal(Part(m, m.Keys - todo))
    {
      var d :| d in todo;
      SaturatedStep(m, m.Keys - todo, d, spent);
      assert m.Keys - (todo - {d}) == (m.Keys - todo) + {d};
      spent := AddAccounting(spent, m[d]);
      todo := todo - {d};
    }
    assert Part(m, m.Keys - todo) == m;
  }

  method SumReserved(l: Row, now: int, seen: Clock, exclude: string) returns (outstanding: int)
    requires forall d :: d in l.allowance ==> l.allowance[d] - Get(l.spent, d) <= MAX_INT64
    ensures outstanding == SaturatedTotal(Reserved(l, now, seen, exclude))
  {
    outstanding := 0;
    ghost var reserved := Reserved(l, now, seen, exclude);
    var todo := l.allowance.Keys;
    ghost var done: set<string> := {};
    assert Part(reserved, done) == map[];
    while todo != {}
      invariant todo <= l.allowance.Keys && done == reserved.Keys - todo
      invariant outstanding == SaturatedTotal(Part(reserved, done))
    {
      var d :| d in todo;
      if d != exclude && Live(l, now, seen, d) && l.allowance[d] > Get(l.spent, d) {
        SaturatedStep(reserved, done, d, outstanding);
        outstanding := AddAccounting(outstanding, l.allowance[d] - Get(l.spent, d));
        done := done + {d};
      }
      todo := todo - {d};
    }
    assert Part(reserved, done) == reserved;
  }

  /** The row's global spend and the allowance other holders may still spend, as the grant loop reads them. */
  method Totals(l: Row, now: int, seen: Clock, exclude: string) returns (spent: int, outstanding: int)
    requires forall d :: d in l.spent ==> l.spent[d] <= MAX_INT64
    requires forall d :: d in l.allowance ==> l.allowance[d] - Get(l.spent, d) <= MAX_INT64
    ensures spent == SaturatedTotal(l.spent)
    ensures outstanding == SaturatedTotal(Reserved(l, now, seen, exclude))
  {
    spent := SumSpent(l.spent);
    outstanding := SumReserved(l, now, seen, exclude);
  }

  lemma {:induction false} DropTwice(l: Row, a: set<string>, b: set<string>)
    ensures DropPlanes(l, {}) == l
    ensures DropPlanes(DropPlanes(l, a), b) == DropPlanes(l, a + b)
  {
    assert l.spent - {} == l.spent && l.allowance - {} == l.allowance;
    assert l.spent - a - b == l.spent - (a + b);
    assert l.allowance - a - b == l.allowance - (a + b);
  }

  lemma {:induction false} DropAllTwice(rows: Rows, a: set<string>, b: set<string>)
    ensures DropAll(rows, {}) == rows
    ensures DropAll(DropAll(rows, a), b) == DropAll(rows, a + b)
  {
    forall k | k in rows {
      DropTwice(rows[k], a, b);
    }
  }

  lemma {:induction false} AbsorbRowsKeepValid(rows: Rows, dp: string, reports: seq<Report>)
    requires ValidRows(rows)
    requires forall i :: 0 <= i < |reports| ==> 0 <= reports[i].spent
    ensures ValidRows(AbsorbRows(rows, dp, reports))
  {
    forall k | k in rows
      ensures ValidRow(AbsorbRows(rows, dp, reports)[k])
    {
      ValuesInRange(reports, k, rows[k].period);
      AbsorbKeepsValid(rows[k], dp, ValuesFor(reports, k, rows[k].period));
    }
  }

  /** Absorbing, pruning and granting the whole table is the per-row heartbeat, row by row. */
  lemma {:induction false} BeatComposes(rows: Rows, req: SyncRequest, seen: Clock, now: int)
    ensures var clock := seen[req.dataplane := now];
            var pruned := DropAll(AbsorbRows(rows, req.dataplane, req.reports), Stale(clock, now));
            GrantSome(pruned, pruned.Keys, now, clock - Stale(clock, now), req.dataplane)
            == BeatRows(rows, req, seen, now)
  {
  }

  class Server {
    var rows: Rows
    var seen: Clock

    ghost predicate Valid()
      reads this
    {
      ValidRows(rows)
    }

    /** A server without rules; its first set comes through ApplyWire like every later one. */
    constructor ()
      ensures Valid() && rows == map[] && seen == map[]
    {
      rows, seen := map[], map[];
    }

    /** Installs a new set of rules; registrations stay. */
    method ApplyWire(defs: seq<Definition>)
      requires Valid() && forall i :: 0 <= i < |defs| ==> ValidDefinition(defs[i])
      modifies this`rows
      ensures Valid() && rows == Rebuilt(old(rows), defs, |defs|)
    {
      hide ValidRow;
      var ledger: Rows := map[];
      for i := 0 to |defs|
        invariant rows == old(rows) && ledger == Rebuilt(rows, defs, i)
      {
        var d := defs[i];
        var l := Row(d.team, d.limit, d.grant, d.renew, d.hard, d.period, d.routingOnly, map[], map[]);
        if d.key in rows && rows[d.key].period == l.period {
          l := l.(spent := rows[d.key].spent);
          if !l.routingOnly {
            l := l.(allowance := rows[d.key].allowance);
          }
        }
        ledger := ledger[d.key := l];
      }
      RebuiltKeepsValid(rows, defs, |defs|);
      rows := ledger;
    }

    /**
     One heartbeat. A malformed batch changes nothing; an accepted one registers the sender, absorbs
     every report, prunes silent planes and answers one lease per leasable rule.
     */
    method HandleSync(req: SyncRequest, now: int) returns (reply: SyncReply)
      requires Valid()
      modifies this
      ensures Valid()
      ensures reply.BadRequest? <==> !WellFormed(req)
      ensures reply.BadRequest? ==> rows == old(rows) && seen == old(seen)
      ensures reply.Accepted? ==>
                && rows == BeatRows(old(rows), req, old(seen), now)
                && seen == BeatClock(req.dataplane, old(seen), now)
                && LeasesOf(reply.leases, rows, rows.Keys, req.dataplane, now)
    {
      if req.dataplane == "" {
        return BadRequest;
      }
      for i := 0 to |req.reports|
        invariant rows == old(rows) && seen == old(seen)
        invariant forall j :: 0 <= j < i ==> 0 <= req.reports[j].spent
      {
        if req.reports[i].spent < 0 {
          return BadRequest;
        }
      }
      ghost var was, clock := rows, seen;
      seen := seen[req.dataplane := now];
      Absorb(req.dataplane, req.reports);
      Prune(now);
      BeatComposes(was, req, clock, now);
      var leases := Grant(req.dataplane, now);
      reply := Accepted(leases);
    }

    method Absorb(dp: string, reports: seq<Report>)
      requires Valid() && forall i :: 0 <= i < |reports| ==> 0 <= reports[i].spent
      modifies this`rows
      ensures Valid()
      ensures rows == AbsorbRows(old(rows), dp, reports)
    {
      ghost var was := rows;
      assert AbsorbRows(was, dp, reports[..0]) == was;
      for i := 0 to |reports|
        invariant rows == AbsorbRows(was, dp, reports[..i])
      {
        var rep := reports[i];
        AbsorbOneMore(was, dp, reports, i);
        if rep.key in rows && PeriodOf(rep.period) == rows[rep.key].period {
          rows := rows[rep.key := AbsorbValue(rows[rep.key], dp, rep.spent)];
        }
      }
      assert reports[..|reports|] == reports;
      AbsorbRowsKeepValid(was, dp, reports);
    }

    /** Planes silent for longer than the prune horizon lose their registration and every row entry. */
    method Prune(now: int)
      requires Valid()
      modifies this
      ensures Valid()
      ensures seen == old(seen) - Stale(old(seen), now)
      ensures rows == DropAll(old(rows), Stale(old(seen), now))
    {
      ghost var was, clock := rows, seen;
      ghost var dead, gone: set<string> := Stale(clock, now), {};
      var todo := seen.Keys;
      DropAllTwice(was, {}, {});
      while todo != {}
        invariant todo <= clock.Keys && gone == dead - todo
        invariant seen == clock - gone
        invariant rows == DropAll(was, gone)
      {
        var d :| d in todo;
        if now - seen[d] > PRUNE_AFTER {
          seen := seen - {d};
          DropAllTwice(was, gone, {d});
          rows := DropAll(rows, {d});
          gone := gone + {d};
        }
        todo := todo - {d};
      }
      assert gone == dead;
    }

    /** Every leasable row extends the sender's allowance and answers with the lease that says so. */
    method Grant(dp: string, now: int) returns (leases: seq<LeaseGrant>)
      requires Valid()
      modifies this`rows
      ensures Valid()
      ensures rows == GrantSome(old(rows), old(rows).Keys, now, seen, dp)
      ensures LeasesOf(leases, rows, rows.Keys, dp, now)
    {
      hide Granted, GrantSome, LeasesOf, ValidRow;
      ghost var was := rows;
      leases := [];
      var todo := rows.Keys;
      assert was.Keys - todo == {};
      GrantNone(was, now, seen, dp);
      while todo != {}
        invariant todo <= was.Keys && Valid()
        invariant rows == GrantSome(was, was.Keys - todo, now, seen, dp)
        invariant LeasesOf(leases, rows, was.Keys - todo, dp, now)
      {
        var k :| k in todo;
        ghost var done := was.Keys - todo;
        GrantOneMore(was, done, now, seen, dp, k);
        var l := GrantRow(rows[k], dp, now);
        LeasesExtend(leases, rows, done, k, l, dp, now);
        rows := rows[k := l];
        if !l.routingOnly {
          leases := leases + [LeaseOf(k, l, dp, now)];
        }
        todo := todo - {k};
        assert was.Keys - todo == done + {k};
      }
      assert was.Keys - todo == was.Keys;
      GrantKeys(was, was.Keys, now, seen, dp);
    }

    method GrantRow(l: Row, dp: string, now: int) returns (l': Row)
      requires ValidRow(l)
      ensures l' == Granted(l, now, seen, dp) && ValidRow(l')
    {
      l' := l;
      if !l.routingOnly {
        var spent, outstanding := Totals(l, now, seen, dp);
        var remaining := 0;
        if spent < l.limit && outstanding < l.limit - spent {
          remaining := l.limit - spent - outstanding;
        }
        var add := l.grant;
        if add > remaining {
          add := remaining;
        }
        GrantFits(l, now, seen, dp);
        l' := l.(allowance := l.allowance[dp := Get(l.spent, dp) + add]);
      }
    }
  }

  /**
   A report is booked on the row of its rule if that row has the period it names, the month if it names none: the
   sender's spend becomes what it says. No other row and no other plane's spend changes.
   */
  lemma {:induction false} ReportIsBooked(rows: Rows, dp: string, rep: Report, k: RuleKey)
    requires k in rows
    ensures var row := rows[k];
            var named := rep.period == Some(row.period) || (rep.period.None? && row.period == CalendarMonth);
            AbsorbRows(rows, dp, [rep])[k].spent == if rep.key == k && named then row.spent[dp := rep.spent] else row.spent
  {
    assert [rep][..0] == [] && [rep][..1] == [rep];
    assert AbsorbRows(rows, dp, []) == rows;
    AbsorbOneMore(rows, dp, [rep], 0);
    hide AbsorbRows;
  }
}
