/**
 Heartbeats and policy edits mixed: what a new set of rules does to the ledger of a running fleet. An edit
 neither replenishes a budget nor uses it up.
 */
module Redistribution {
  import opened Options
  import opened Periods
  import opened Ledger
  import opened LeaseProtocol
  import opened LeaseClamp
  import opened Ints
  import opened Sums

  datatype Event = Heard(sync: Sync) | Edited(defs: seq<Definition>)

  /** The server after any mixture of accepted heartbeats and edits. */
  ghost function Drive(rules: Rows, events: seq<Event>): Plane {
    if events == [] then Plane(rules, map[])
    else
      var before := Drive(rules, events[..|events| - 1]);
      match events[|events| - 1]
      case Heard(s) => Plane(BeatRows(before.rows, s.req, before.seen, s.now), BeatClock(s.req.dataplane, before.seen, s.now))
      case Edited(defs) => before.(rows := Rebuilt(before.rows, defs, |defs|))
  }

  /** The heartbeats among the events. */
  function Heartbeats(events: seq<Event>): seq<Sync> {
    if events == [] then []
    else Heartbeats(events[..|events| - 1]) + if events[|events| - 1].Heard? then [events[|events| - 1].sync] else []
  }

  /** Every state such a server can reach holds int64 amounts and well-formed rules. */
  lemma {:induction false} DriveKeepsValid(rules: Rows, events: seq<Event>)
    requires ValidRows(rules)
    requires forall i :: 0 <= i < |events| && events[i].Heard? ==> WellFormed(events[i].sync.req)
    requires forall i :: 0 <= i < |events| && events[i].Edited? ==>
               forall j :: 0 <= j < |events[i].defs| ==> ValidDefinition(events[i].defs[j])
    ensures ValidRows(Drive(rules, events).rows)
  {
    hide BeatRows, BeatClock, ValidRows, WellFormed, ValidDefinition, Rebuilt;
    if events != [] {
      var n := |events| - 1;
      DriveKeepsValid(rules, events[..n]);
      var before := Drive(rules, events[..n]);
      match events[n]
      case Heard(s) => BeatRowsKeepValid(before.rows, s.req, before.seen, s.now);
      case Edited(defs) => RebuiltKeepsValid(before.rows, defs, |defs|);
    }
  }

  // ---- spend across edits ---------------------------------------------------------------------------

  /** Every rule of this name in the set has this period, and there is one. */
  ghost predicate KeepsRule(defs: seq<Definition>, k: RuleKey, period: Period) {
    && (exists i :: 0 <= i < |defs| && defs[i].key == k)
    && (forall i :: 0 <= i < |defs| && defs[i].key == k ==> defs[i].period == period)
  }

  lemma {:induction false} RebuiltCarries(rows: Rows, defs: seq<Definition>, n: nat, k: RuleKey)
    requires n <= |defs| && k in rows && forall i :: 0 <= i < |defs| && defs[i].key == k ==> defs[i].period == rows[k].period
    ensures k in Rebuilt(rows, defs, n) <==> exists i :: 0 <= i < n && defs[i].key == k
    ensures k in Rebuilt(rows, defs, n) ==>
              Rebuilt(rows, defs, n)[k].spent == rows[k].spent && Rebuilt(rows, defs, n)[k].period == rows[k].period
  {
    if n > 0 {
      RebuiltCarries(rows, defs, n - 1, k);
    }
  }

  lemma {:induction false} AbsorbSpendAlike(l: Row, r: Row, dp: string, vs: seq<int>)
    requires l.spent == r.spent
    ensures AbsorbValues(l, dp, vs).spent == AbsorbValues(r, dp, vs).spent
  {
    if vs != [] {
      AbsorbSpendAlike(l, r, dp, vs[..|vs| - 1]);
    }
  }

  /** What a heartbeat does to the spend on record does not depend on limit, grant, renewal or allowances. */
  lemma {:induction false} BeatSpendAlike(l: Row, r: Row, dp: string, vs: seq<int>, seen: Clock, now: int)
    requires l.spent == r.spent
    ensures BeatRow(l, dp, vs, seen, now).spent == BeatRow(r, dp, vs, seen, now).spent
    ensures BeatRow(l, dp, vs, seen, now).period == l.period
  {
    hide GrantedAllowance, Stale, AbsorbValues;
    AbsorbSpendAlike(l, r, dp, vs);
  }

  /** Two servers have heard from the same planes and have the same spend on record for a rule of this period. */
  ghost predicate Alike(a: Plane, b: Plane, k: RuleKey, period: Period) {
    && k in a.rows && k in b.rows && a.seen == b.seen && a.rows[k].spent == b.rows[k].spent
    && a.rows[k].period == b.rows[k].period == period
  }

  lemma {:induction false} AlikeAtFirst(rules: Rows, k: RuleKey)
    requires k in rules
    ensures Alike(Plane(rules, map[]), Plane(rules, map[]), k, rules[k].period)
  {
  }

  lemma {:induction false} HeardAlike(a: Plane, b: Plane, s: Sync, k: RuleKey, period: Period)
    requires Alike(a, b, k, period)
    ensures Alike(Plane(BeatRows(a.rows, s.req, a.seen, s.now), BeatClock(s.req.dataplane, a.seen, s.now)),
                  Plane(BeatRows(b.rows, s.req, b.seen, s.now), BeatClock(s.req.dataplane, b.seen, s.now)), k, period)
  {
    hide BeatRow, BeatClock, ValuesFor;
    var vs := ValuesFor(s.req.reports, k, period);
    BeatSpendAlike(a.rows[k], b.rows[k], s.req.dataplane, vs, a.seen, s.now);
    BeatSpendAlike(b.rows[k], b.rows[k], s.req.dataplane, vs, b.seen, s.now);
  }

  lemma {:induction false} EditedAlike(a: Plane, b: Plane, defs: seq<Definition>, k: RuleKey, period: Period)
    requires Alike(a, b, k, period) && KeepsRule(defs, k, period)
    ensures Alike(a.(rows := Rebuilt(a.rows, defs, |defs|)), b, k, period)
  {
    hide Rebuilt;
    RebuiltCarries(a.rows, defs, |defs|, k);
  }

  /**
   Edits neither replenish a budget nor use it up: as long as every edit keeps a rule's name and period, its
   recorded spend after any mixture of heartbeats and edits is what the heartbeats alone would have left,
   whatever the edits did to limits, grants, renewal intervals and to all other rules.
   */
  lemma {:induction false} SpendSurvivesEdits(rules: Rows, events: seq<Event>, k: RuleKey)
    requires k in rules
    requires forall i :: 0 <= i < |events| && events[i].Edited? ==> KeepsRule(events[i].defs, k, rules[k].period)
    ensures Alike(Drive(rules, events), Serve(rules, Heartbeats(events)), k, rules[k].period)
  {
    hide Alike, BeatRows, BeatClock, Rebuilt;
    if events == [] {
      AlikeAtFirst(rules, k);
    } else {
      var n := |events| - 1;
      SpendSurvivesEdits(rules, events[..n], k);
      var mixed, plain := Drive(rules, events[..n]), Serve(rules, Heartbeats(events[..n]));
      match events[n]
      case Heard(s) =>
        var all := Heartbeats(events[..n]) + [s];
        assert all[..|all| - 1] == Heartbeats(events[..n]);
        HeardAlike(mixed, plain, s, k, rules[k].period);
      case Edited(defs) =>
        assert Heartbeats(events[..n]) + [] == Heartbeats(events[..n]);
        EditedAlike(mixed, plain, defs, k, rules[k].period);
    }
  }

  /** The period of the last rule of this name in the first n. */
  function LastPeriod(defs: seq<Definition>, n: nat, k: RuleKey): Option<Period>
    requires n <= |defs|
  {
    if n == 0 then None else if defs[n - 1].key == k then Some(defs[n - 1].period) else LastPeriod(defs, n - 1, k)
  }

  /**
   One edit keeps a rule's recorded spend exactly when the last rule of its name in the new set has the period
   of the old one; otherwise the rule is gone or starts again from nothing.
   */
  lemma {:induction false} EditKeepsSpendIff(rows: Rows, defs: seq<Definition>, n: nat, k: RuleKey)
    requires n <= |defs| && k in rows && rows[k].spent != map[]
    ensures var next := Rebuilt(rows, defs, n);
            && (k in next && next[k].spent == rows[k].spent <==> LastPeriod(defs, n, k) == Some(rows[k].period))
            && (LastPeriod(defs, n, k) != Some(rows[k].period) ==> k !in next || next[k].spent == map[])
            && (k in next <==> LastPeriod(defs, n, k).Some?)
  {
    if n > 0 {
      EditKeepsSpendIff(rows, defs, n - 1, k);
    }
  }

  // ---- limits and reservations across edits -----------------------------------------------------------

  /** The last rule of this name in the first n. */
  function LastRule(defs: seq<Definition>, n: nat, k: RuleKey): Option<Definition>
    requires n <= |defs|
  {
    if n == 0 then None else if defs[n - 1].key == k then Some(defs[n - 1]) else LastRule(defs, n - 1, k)
  }

  lemma {:induction false} RebuiltIs(rows: Rows, defs: seq<Definition>, n: nat, k: RuleKey)
    requires n <= |defs|
    ensures k in Rebuilt(rows, defs, n) <==> LastRule(defs, n, k).Some?
    ensures LastRule(defs, n, k).Some? ==> Rebuilt(rows, defs, n)[k] == Carried(rows, LastRule(defs, n, k).value)
    ensures LastRule(defs, n, k).Some? ==> LastRule(defs, n, k).value.key == k && LastRule(defs, n, k).value in defs
  {
    hide Carried;
    if n > 0 {
      RebuiltIs(rows, defs, n - 1, k);
    }
  }

  /**
   An edit takes effect with the next heartbeat: the lease it answers for a rule is for the edited rule's team and
   window, with its cap and three of its renewals. It adds at most the edited grant, the whole of it unless the
   edited limit is reached, and nothing past that limit.
   */
  lemma {:induction false} EditBindsNextGrant(rows: Rows, defs: seq<Definition>, k: RuleKey, dp: string, vs: seq<int>,
                                              seen: Clock, now: int)
    requires ValidRows(rows) && forall i :: 0 <= i < |defs| ==> ValidDefinition(defs[i])
    requires LastRule(defs, |defs|, k).Some? && !LastRule(defs, |defs|, k).value.routingOnly
    requires forall i :: 0 <= i < |vs| ==> 0 <= vs[i] <= MAX_INT64
    ensures k in Rebuilt(rows, defs, |defs|)
    ensures var d, clock := LastRule(defs, |defs|, k).value, BeatClock(dp, seen, now);
            var r := BeatRow(Rebuilt(rows, defs, |defs|)[k], dp, vs, seen, now);
            var lease := LeaseOf(k, r, dp, now);
            var added := lease.allowance - Get(r.spent, dp);
            && lease.team == d.team && lease.period == d.period && lease.hard == d.hard
            && lease.expiresAt == now + 3 * d.renew
            && 0 <= added <= d.grant
            && (added > 0 ==> SpentTotal(r) + Outstanding(r, now, clock, dp) + added <= d.limit)
            && (added < d.grant ==> SpentTotal(r) + Outstanding(r, now, clock, dp) + added >= d.limit)
  {
    hide Total, Headroom, AbsorbValues, Stale, Rebuilt;
    var d := LastRule(defs, |defs|, k).value;
    RebuiltIs(rows, defs, |defs|, k);
    RebuiltKeepsValid(rows, defs, |defs|);
    var l, clock := Rebuilt(rows, defs, |defs|)[k], BeatClock(dp, seen, now);
    var before := DropPlanes(AbsorbValues(l, dp, vs), Stale(seen[dp := now], now));
    AbsorbKeepsValid(l, dp, vs);
    GrantFits(before, now, clock, dp);
    SameOutstanding(before, Granted(before, now, clock, dp), now, clock, dp);
  }

  /**
   Leases already out stay backed through an edit that keeps a rule's period and renewal and leaves it leasable:
   what is held back for every plane is the same at every time. A rule that only switches models holds back nothing.
   */
  lemma {:induction false} EditKeepsReservations(rows: Rows, defs: seq<Definition>, k: RuleKey, t: int, seen: Clock,
                                                 exclude: string)
    requires k in rows && LastRule(defs, |defs|, k).Some?
    ensures k in Rebuilt(rows, defs, |defs|)
    ensures var d, l := LastRule(defs, |defs|, k).value, Rebuilt(rows, defs, |defs|)[k];
            if d.period == rows[k].period && !d.routingOnly
            then d.renew == rows[k].renew ==> Reserved(l, t, seen, exclude) == Reserved(rows[k], t, seen, exclude)
            else Reserved(l, t, seen, exclude) == map[]
  {
    hide Rebuilt;
    RebuiltIs(rows, defs, |defs|, k);
  }
}
