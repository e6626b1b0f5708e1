/** The data plane's side of a lease: the gate, the clamp on the local limit, and when a renewed plane is refused. */
module LeaseClamp {
  import opened Ints
  import opened Sums
  import opened Ledger
  import LeaseTable

  /** Within a lease the local limit is the allowance, at least one micro-dollar and at most the rule's own limit. */
  function LocalLimit(limit: int, allowance: int): int {
    if limit != 0 && Max(allowance, 1) >= limit then limit else Max(allowance, 1)
  }

  /** A plane with this spend and this lease is refused: by the gate, or by its own budget check. */
  predicate Refused(spent: int, limit: int, lease: LeaseTable.Lease, t: int) {
    LeaseTable.Refuses(lease, t) || (lease.hard && spent > LocalLimit(limit, lease.allowance))
  }

  /** The same for the lease that a row answers `dp` with at `now`. */
  predicate RefusedUnder(l: Row, dp: string, now: int, t: int) {
    Refused(Get(l.spent, dp), l.limit, LeaseTable.Lease(Get(l.allowance, dp), now + 3 * l.renew, l.hard), t)
  }

  /** There is nothing left to grant: no grants at all, or spend and live reservations reach the limit. */
  lemma {:induction false} NoHeadroomIff(l: Row, now: int, seen: Clock, dp: string)
    requires ValidRow(l)
    ensures Headroom(l, now, seen, dp) == 0 <==> l.grant == 0 || SpentTotal(l) + Outstanding(l, now, seen, dp) >= l.limit
  {
    SaturatedIsTotal(l.spent);
    SaturatedIsTotal(Reserved(l, now, seen, dp));
    TotalNonNegative(l.spent);
    TotalNonNegative(Reserved(l, now, seen, dp));
  }

  /**
   A plane is refused right after a renewal, until that lease expires, exactly when the cap is hard and either
   its own spend alone is past the limit, or it has spent nothing and there was nothing left to grant. In
   every other case it is let through once more, however far past the limit the fleet is.
   */
  lemma {:induction false} RefusedAfterRenewalIff(l: Row, dp: string, vs: seq<int>, seen: Clock, now: int, t: int)
    requires ValidRow(l) && !l.routingOnly && (forall i :: 0 <= i < |vs| ==> 0 <= vs[i] <= MAX_INT64)
    requires now <= t <= now + 3 * l.renew
    ensures var r, clock := BeatRow(l, dp, vs, seen, now), BeatClock(dp, seen, now);
            var exhausted := r.grant == 0 || SpentTotal(r) + Outstanding(r, now, clock, dp) >= r.limit;
            RefusedUnder(r, dp, now, t) <==> r.hard && (Get(r.spent, dp) > r.limit || (Get(r.spent, dp) == 0 && exhausted))
  {
    hide Total, Headroom, AbsorbValues, Stale;
    var clock := BeatClock(dp, seen, now);
    var before := DropPlanes(AbsorbValues(l, dp, vs), Stale(seen[dp := now], now));
    AbsorbKeepsValid(l, dp, vs);
    var r := Granted(before, now, clock, dp);
    assert r == BeatRow(l, dp, vs, seen, now);
    GrantFits(before, now, clock, dp);
    NoHeadroomIff(before, now, clock, dp);
    SameOutstanding(before, r, now, clock, dp);
  }

  lemma {:induction false} SameOutstanding(l: Row, r: Row, now: int, seen: Clock, dp: string)
    requires r == l.(allowance := r.allowance) && r.allowance == l.allowance[dp := Get(r.allowance, dp)]
    ensures Outstanding(l, now, seen, dp) == Outstanding(r, now, seen, dp)
  {
    assert Reserved(l, now, seen, dp) == Reserved(r, now, seen, dp);
  }

  /** The same for every lease of a whole answer: what one accepted heartbeat answers, on the rows it leaves behind. */
  lemma {:induction false} AnswerRefusesIff(rows: Rows, req: SyncRequest, seen: Clock, now: int,
                                            leases: seq<LeaseGrant>, j: nat, t: int)
    requires ValidRows(rows) && WellFormed(req) && j < |leases|
    requires var after := BeatRows(rows, req, seen, now); LeasesOf(leases, after, after.Keys, req.dataplane, now)
    requires now <= t <= leases[j].expiresAt
    ensures var after, clock, dp := BeatRows(rows, req, seen, now), BeatClock(req.dataplane, seen, now), req.dataplane;
            && leases[j].key in after
            && var r := after[leases[j].key];
               var exhausted := r.grant == 0 || SpentTotal(r) + Outstanding(r, now, clock, dp) >= r.limit;
               Refused(Get(r.spent, dp), r.limit, LeaseTable.Lease(leases[j].allowance, leases[j].expiresAt, leases[j].hard), t)
               <==> r.hard && (Get(r.spent, dp) > r.limit || (Get(r.spent, dp) == 0 && exhausted))
  {
    hide Total, BeatRow, BeatClock, Refused, ValuesFor, Outstanding, ValidRow, WellFormed;
    var k, dp := leases[j].key, req.dataplane;
    var vs := ValuesFor(req.reports, k, rows[k].period);
    assert forall i :: 0 <= i < |req.reports| ==> 0 <= req.reports[i].spent by { NotNegative(req); }
    ValuesInRange(req.reports, k, rows[k].period);
    BeatKeepsValid(rows[k], dp, vs, seen, now);
    RefusedAfterRenewalIff(rows[k], dp, vs, seen, now, t);
  }

  lemma {:induction false} NotNegative(req: SyncRequest)
    requires WellFormed(req)
    ensures forall i :: 0 <= i < |req.reports| ==> 0 <= req.reports[i].spent
  {
  }
}
