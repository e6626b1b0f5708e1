/**
 The answer to a heartbeat, on both sides: the leases it carries expire when the ledger stops holding back for
 them, they reach exactly the teams and windows of the leasable rules, and the gate that reads them refuses a
 team exactly when the ledger has nothing for it.
 */
module LeaseGate {
  import opened Periods
  import opened Options
  import opened Ints
  import opened Sums
  import opened Ledger
  import opened FleetBound
  import opened LeaseProtocol
  import LeaseTable

  /** The leases are the server's answer to the `i`-th heartbeat of a run. */
  ghost predicate Answers(rules: Rows, syncs: seq<Sync>, i: nat, leases: seq<LeaseGrant>)
    requires i < |syncs|
  {
    var issued := Serve(rules, syncs[..i + 1]);
    LeasesOf(leases, issued.rows, issued.rows.Keys, syncs[i].req.dataplane, syncs[i].now)
  }

  /**
   What an answered lease says holds of the ledger until another heartbeat of that plane: at every later time the
   plane is counted live exactly while the lease's own expiry has not passed, and what is held back for it is the
   lease's own allowance less the spend on record when it was given, or nothing once it has expired.
   */
  lemma {:induction false} AnswerExpiresWithLedger(rules: Rows, syncs: seq<Sync>, i: nat, leases: seq<LeaseGrant>,
                                                   j: nat, t: int)
    requires LastSync(syncs, i, t) && Answers(rules, syncs, i, leases) && j < |leases|
    requires forall n :: 0 <= n < |syncs| ==> WellFormed(syncs[n].req)
    requires leases[j].key in rules ==> FreshRule(rules[leases[j].key]) && 3 * rules[leases[j].key].renew <= PRUNE_AFTER
    ensures leases[j].key in Serve(rules, syncs).rows && leases[j].key in Serve(rules, syncs[..i + 1]).rows
    ensures var at, was, dp := Serve(rules, syncs), Serve(rules, syncs[..i + 1]), syncs[i].req.dataplane;
            var row := at.rows[leases[j].key];
            && (Live(row, t, at.seen, dp) <==> t <= leases[j].expiresAt)
            && Get(Reserved(row, t, at.seen, ""), dp)
               == (if t <= leases[j].expiresAt
                   then Max(0, leases[j].allowance - Get(was.rows[leases[j].key].spent, dp)) else 0)
  {
    hide BeatRows, BeatClock, Step, Reserved, WellFormed, FreshRule;
    var k, dp := leases[j].key, syncs[i].req.dataplane;
    ServeKeepsRules(rules, syncs[..i + 1]);
    AnsweredIs(rules, syncs, i, k);
    var beats := Beats(syncs, k, rules[k].period);
    ServeIsRowwise(rules, syncs, k);
    BeatsPlausible(syncs, k, rules[k].period);
    LiveUntilExpiry(rules[k], beats, i, t);
    LastLeaseIsHeldBack(rules[k], beats, i, t);
    IssuedIs(rules[k], beats, i);
  }

  // ---- which teams and windows an answer reaches ----------------------------------------------------------

  /** The rule leases a budget of this team in this window. */
  predicate Leases(rules: Rows, k: RuleKey, team: string, p: Period) {
    k in rules && !rules[k].routingOnly && rules[k].team == team && rules[k].period == p
  }

  /** Each leasable rule has its lease in the answer: its team and window, what it was granted, three renewals. */
  lemma {:induction false} RuleIsAnswered(rules: Rows, syncs: seq<Sync>, i: nat, leases: seq<LeaseGrant>, k: RuleKey)
    returns (j: nat)
    requires i < |syncs| && Answers(rules, syncs, i, leases) && k in rules && !rules[k].routingOnly
    ensures j < |leases| && leases[j].key == k && k in Serve(rules, syncs[..i + 1]).rows
    ensures leases[j].team == rules[k].team && leases[j].period == rules[k].period && leases[j].hard == rules[k].hard
    ensures leases[j].expiresAt == syncs[i].now + 3 * rules[k].renew
    ensures leases[j].allowance == Get(Serve(rules, syncs[..i + 1]).rows[k].allowance, syncs[i].req.dataplane)
  {
    hide Serve;
    ServeKeepsRule(rules, syncs[..i + 1], k);
    var n :| 0 <= n < |leases| && leases[n].key == k;
    j := n;
  }

  /** And every lease of the answer is that of a leasable rule. */
  lemma {:induction false} AnswerIsOfRule(rules: Rows, syncs: seq<Sync>, i: nat, leases: seq<LeaseGrant>, j: nat)
    requires i < |syncs| && Answers(rules, syncs, i, leases) && j < |leases|
    ensures Leases(rules, leases[j].key, leases[j].team, leases[j].period)
    ensures var k := leases[j].key;
            && k in Serve(rules, syncs[..i + 1]).rows && leases[j].hard == rules[k].hard
            && leases[j].expiresAt == syncs[i].now + 3 * rules[k].renew
            && leases[j].allowance == Get(Serve(rules, syncs[..i + 1]).rows[k].allowance, syncs[i].req.dataplane)
  {
    hide Serve;
    ServeKeepsRules(rules, syncs[..i + 1]);
    ServeKeepsRule(rules, syncs[..i + 1], leases[j].key);
  }

  lemma {:induction false} WireConcerns(leases: seq<LeaseGrant>, j: nat, team: string, p: Period)
    requires j < |leases|
    ensures LeaseTable.Concerns(Wire(leases)[j], team, p) <==> leases[j].team == team && leases[j].period == p
    ensures var g := Wire(leases)[j];
            g.allowance == leases[j].allowance && g.expiresAt == leases[j].expiresAt && g.hard == leases[j].hard
  {
  }

  /**
   The data plane's table, made from an answer, has an entry for exactly the teams and windows that some leasable
   rule names.
   */
  lemma {:induction false} TableReachesRules(rules: Rows, syncs: seq<Sync>, i: nat, leases: seq<LeaseGrant>,
                                             t: LeaseTable.Table, team: string, p: Period)
    requires i < |syncs| && Answers(rules, syncs, i, leases) && LeaseTable.Merged(t, Wire(leases))
    ensures LeaseTable.Has(t, team, p) <==> exists k :: Leases(rules, k, team, p)
  {
    hide Answers, Wire, LeaseTable.IsMerge;
    if LeaseTable.Has(t, team, p) {
      var j :| 0 <= j < |Wire(leases)| && LeaseTable.Concerns(Wire(leases)[j], team, p);
      assert j < |leases| by { WireLength(leases); }
      WireConcerns(leases, j, team, p);
      AnswerIsOfRule(rules, syncs, i, leases, j);
    }
    if k :| Leases(rules, k, team, p) {
      var j := RuleIsAnswered(rules, syncs, i, leases, k);
      WireLength(leases);
      WireConcerns(leases, j, team, p);
    }
  }

  lemma {:induction false} WireLength(leases: seq<LeaseGrant>)
    ensures |Wire(leases)| == |leases|
  {
  }

  // ---- when the gate refuses ------------------------------------------------------------------------------

  /** The ledger has nothing for the plane under this rule: its lease is over, or nothing is allowed. */
  predicate Nothing(at: Plane, k: RuleKey, dp: string, t: int) {
    k in at.rows && (!Live(at.rows[k], t, at.seen, dp) || Get(at.rows[k].allowance, dp) <= 0)
  }

  /** A lease of the latest answer has expired or allows nothing exactly when the ledger has nothing for its rule. */
  lemma {:induction false} LeaseMirrorsLedger(rules: Rows, syncs: seq<Sync>, i: nat, leases: seq<LeaseGrant>, j: nat,
                                              t: int)
    requires LastSync(syncs, i, t) && Answers(rules, syncs, i, leases) && j < |leases|
    requires forall k :: k in rules ==> 3 * rules[k].renew <= PRUNE_AFTER
    ensures (t > leases[j].expiresAt || leases[j].allowance <= 0)
            <==> Nothing(Serve(rules, syncs), leases[j].key, syncs[i].req.dataplane, t)
  {
    hide BeatRows, BeatClock, Step, Answers, Serve;
    var k := leases[j].key;
    AnswerIsOfRule(rules, syncs, i, leases, j);
    AnsweredIs(rules, syncs, i, k);
    var beats := Beats(syncs, k, rules[k].period);
    ServeIsRowwise(rules, syncs, k);
    LiveUntilExpiry(rules[k], beats, i, t);
    IssuedIs(rules[k], beats, i);
    assert beats[..|beats|] == beats;
    if t <= leases[j].expiresAt {
      SilentKeepsEntries(rules[k], beats, i, |beats|, t);
    }
  }

  /** What a refusing entry of the table comes from. */
  lemma {:induction false} RefusalComesFrom(leases: seq<LeaseGrant>, t: LeaseTable.Table, team: string, p: Period,
                                            now: int)
    returns (h: nat, k: nat)
    requires LeaseTable.Merged(t, Wire(leases)) && LeaseTable.Has(t, team, p) && LeaseTable.Refuses(t[team][p], now)
    ensures h < |leases| && leases[h].team == team && leases[h].period == p && leases[h].hard
    ensures k < |leases| && leases[k].team == team && leases[k].period == p
    ensures now > leases[k].expiresAt || leases[k].allowance <= 0
  {
    hide Wire;
    var grants, l := Wire(leases), t[team][p];
    WireLength(leases);
    assert LeaseTable.IsMerge(grants, team, p, l);
    var a :| 0 <= a < |grants| && LeaseTable.Concerns(grants[a], team, p) && grants[a].allowance == l.allowance;
    var e :| 0 <= e < |grants| && LeaseTable.Concerns(grants[e], team, p) && grants[e].expiresAt == l.expiresAt;
    var x :| 0 <= x < |grants| && LeaseTable.Concerns(grants[x], team, p) && grants[x].hard;
    h, k := x, if now > l.expiresAt then e else a;
    WireConcerns(leases, h, team, p);
    WireConcerns(leases, k, team, p);
  }

  /** And what makes one refuse. */
  lemma {:induction false} RefusalFollows(leases: seq<LeaseGrant>, t: LeaseTable.Table, h: nat, k: nat, now: int)
    requires LeaseTable.Merged(t, Wire(leases)) && h < |leases| && k < |leases| && leases[h].hard
    requires leases[h].team == leases[k].team && leases[h].period == leases[k].period
    requires now > leases[k].expiresAt || leases[k].allowance <= 0
    ensures !LetThrough(t, leases[k].team, now)
  {
    hide Wire;
    var grants, team, p := Wire(leases), leases[k].team, leases[k].period;
    WireLength(leases);
    WireConcerns(leases, h, team, p);
    WireConcerns(leases, k, team, p);
    assert LeaseTable.Has(t, team, p);
    assert LeaseTable.IsMerge(grants, team, p, t[team][p]);
  }

  /**
   The gate mirrors the ledger. For every fleet and at every time until the plane's next heartbeat, its gate
   refuses a team exactly when, in some window, a leasable rule of the team is hard and the ledger has nothing for
   the plane under some rule of the same window: it counts it no longer live, or allows it nothing.
   */
  lemma {:induction false} GateMirrorsLedger(rules: Rows, syncs: seq<Sync>, i: nat, leases: seq<LeaseGrant>,
                                             t: LeaseTable.Table, team: string, now: int)
    requires LastSync(syncs, i, now) && Answers(rules, syncs, i, leases) && LeaseTable.Merged(t, Wire(leases))
    requires forall k :: k in rules ==> 3 * rules[k].renew <= PRUNE_AFTER
    ensures !LetThrough(t, team, now) <==>
            exists p, h, k :: Leases(rules, h, team, p) && rules[h].hard && Leases(rules, k, team, p)
                              && Nothing(Serve(rules, syncs), k, syncs[i].req.dataplane, now)
  {
    hide Answers, Wire, Serve, Nothing, LeaseTable.Merged, LeaseTable.Refuses;
    var at, dp := Serve(rules, syncs), syncs[i].req.dataplane;
    if !LetThrough(t, team, now) {
      var p :| LeaseTable.Has(t, team, p) && LeaseTable.Refuses(t[team][p], now);
      var h, k := RefusalComesFrom(leases, t, team, p, now);
      AnswerIsOfRule(rules, syncs, i, leases, h);
      AnswerIsOfRule(rules, syncs, i, leases, k);
      LeaseMirrorsLedger(rules, syncs, i, leases, k, now);
      assert Leases(rules, leases[h].key, team, p) && Leases(rules, leases[k].key, team, p);
    }
    if p, h, k :| Leases(rules, h, team, p) && rules[h].hard && Leases(rules, k, team, p) && Nothing(at, k, dp, now) {
      var x := RuleIsAnswered(rules, syncs, i, leases, h);
      var j := RuleIsAnswered(rules, syncs, i, leases, k);
      LeaseMirrorsLedger(rules, syncs, i, leases, j, now);
      RefusalFollows(leases, t, x, j, now);
    }
  }
}
