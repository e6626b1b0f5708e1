/**
 The data plane's lease table: one heartbeat's grants merged per (team, window), and the admission
 gate that reads it.
 */
module LeaseTable {
  import opened Periods
  import opened Ints
  import opened Options
  import opened Ledger

  /** A grant as it comes off the wire; an older control plane names no period. */
  datatype WireGrant = WireGrant(team: string, allowance: int, expiresAt: int, hard: bool, period: Option<Period>)

  datatype Lease = Lease(allowance: int, expiresAt: int, hard: bool)

  type Table = map<string, map<Period, Lease>>

  predicate Concerns(g: WireGrant, team: string, p: Period) {
    g.team == team && PeriodOf(g.period) == p
  }

  predicate Has(t: Table, team: string, p: Period) {
    team in t && p in t[team]
  }

  /** Declarative meaning of a merge: every bound is attained by some grant and no grant is tighter. */
  ghost predicate IsMerge(grants: seq<WireGrant>, team: string, p: Period, l: Lease) {
    && (exists i :: 0 <= i < |grants| && Concerns(grants[i], team, p) && grants[i].allowance == l.allowance)
    && (exists i :: 0 <= i < |grants| && Concerns(grants[i], team, p) && grants[i].expiresAt == l.expiresAt)
    && (forall i :: 0 <= i < |grants| && Concerns(grants[i], team, p) ==>
          l.allowance <= grants[i].allowance && l.expiresAt <= grants[i].expiresAt)
    && (l.hard <==> exists i :: 0 <= i < |grants| && Concerns(grants[i], team, p) && grants[i].hard)
  }

  /** The table holds exactly the merges of these grants. */
  ghost predicate Merged(t: Table, grants: seq<WireGrant>) {
    forall team, p ::
      && (Has(t, team, p) <==> exists i :: 0 <= i < |grants| && Concerns(grants[i], team, p))
      && (Has(t, team, p) ==> IsMerge(grants, team, p, t[team][p]))
  }

  /** Most restrictive wins: smallest allowance, earliest expiry, hard if either is. */
  function Tighten(l: Lease, g: WireGrant): Lease {
    Lease(Min(l.allowance, g.allowance), Min(l.expiresAt, g.expiresAt), l.hard || g.hard)
  }

  function Install(t: Table, g: WireGrant): Table {
    var p := PeriodOf(g.period);
    var windows := if g.team in t then t[g.team] else map[];
    t[g.team := windows[p := if p in windows then Tighten(windows[p], g)
                             else Lease(g.allowance, g.expiresAt, g.hard)]]
  }

  lemma {:induction false} MergeMore(grants: seq<WireGrant>, g: WireGrant, team: string, p: Period, l: Lease)
    requires IsMerge(grants, team, p, l)
    ensures IsMerge(grants + [g], team, p, if Concerns(g, team, p) then Tighten(l, g) else l)
  {
    var all := grants + [g];
    var m := if Concerns(g, team, p) then Tighten(l, g) else l;
    var n := |grants|;
    assert forall i :: 0 <= i < n ==> all[i] == grants[i];
    var a :| 0 <= a < n && Concerns(grants[a], team, p) && grants[a].allowance == l.allowance;
    var e :| 0 <= e < n && Concerns(grants[e], team, p) && grants[e].expiresAt == l.expiresAt;
    assert all[if m.allowance == l.allowance then a else n].allowance == m.allowance;
    assert all[if m.expiresAt == l.expiresAt then e else n].expiresAt == m.expiresAt;
    if m.hard {
      if l.hard {
        var h :| 0 <= h < n && Concerns(grants[h], team, p) && grants[h].hard;
        assert all[h].hard;
      } else {
        assert all[n].hard;
      }
    }
  }

  lemma {:induction false} MergeFirst(grants: seq<WireGrant>, g: WireGrant, team: string, p: Period)
    requires Concerns(g, team, p) && forall i :: 0 <= i < |grants| ==> !Concerns(grants[i], team, p)
    ensures IsMerge(grants + [g], team, p, Lease(g.allowance, g.expiresAt, g.hard))
  {
    var all := grants + [g];
    assert all[|grants|] == g;
  }

  lemma {:induction false} InstallMerges(t: Table, grants: seq<WireGrant>, g: WireGrant)
    requires Merged(t, grants)
    ensures Merged(Install(t, g), grants + [g])
  {
    var all, t' := grants + [g], Install(t, g);
    forall team, p
      ensures Has(t', team, p) <==> exists i :: 0 <= i < |all| && Concerns(all[i], team, p)
      ensures Has(t', team, p) ==> IsMerge(all, team, p, t'[team][p])
    {
      assert Has(t', team, p) <==> Has(t, team, p) || Concerns(g, team, p);
      assert all[|grants|] == g;
      if Has(t, team, p) {
        var i :| 0 <= i < |grants| && Concerns(grants[i], team, p);
        assert Concerns(all[i], team, p);
        MergeMore(grants, g, team, p, t[team][p]);
      } else if Concerns(g, team, p) {
        MergeFirst(grants, g, team, p);
      }
    }
  }

  /** A merge is determined by the grants it merges, not by the order they arrived in. */
  lemma {:induction false} MergeIsOrderFree(one: seq<WireGrant>, two: seq<WireGrant>, team: string, p: Period,
                                            l: Lease, m: Lease)
    requires IsMerge(one, team, p, l) && IsMerge(two, team, p, m)
    requires forall g :: g in one <==> g in two
    ensures l == m
  {
    var a :| 0 <= a < |one| && Concerns(one[a], team, p) && one[a].allowance == l.allowance;
    var e :| 0 <= e < |one| && Concerns(one[e], team, p) && one[e].expiresAt == l.expiresAt;
    assert one[a] in two && one[e] in two;
    var a' :| 0 <= a' < |two| && Concerns(two[a'], team, p) && two[a'].allowance == m.allowance;
    var e' :| 0 <= e' < |two| && Concerns(two[e'], team, p) && two[e'].expiresAt == m.expiresAt;
    assert two[a'] in one && two[e'] in one;
    if l.hard {
      var h :| 0 <= h < |one| && Concerns(one[h], team, p) && one[h].hard;
      assert one[h] in two;
    }
    if m.hard {
      var h :| 0 <= h < |two| && Concerns(two[h], team, p) && two[h].hard;
      assert two[h] in one;
    }
  }

  /** A hard lease that is past its expiry, or has nothing left, fails closed. */
  predicate Refuses(l: Lease, now: int) {
    l.hard && (now > l.expiresAt || l.allowance <= 0)
  }

  class Leases {
    var byTeam: Table

    constructor ()
      ensures byTeam == map[] && Merged(byTeam, [])
    {
      byTeam := map[];
    }

    /** One heartbeat's grants replace the table wholesale. */
    method Set(grants: seq<WireGrant>)
      modifies this
      ensures Merged(byTeam, grants)
    {
      var t: Table := map[];
      for i := 0 to |grants|
        invariant Merged(t, grants[..i])
      {
        InstallMerges(t, grants[..i], grants[i]);
        assert grants[..i + 1] == grants[..i] + [grants[i]];
        t := Install(t, grants[i]);
      }
      assert grants[..|grants|] == grants;
      byTeam := t;
    }

    function Lookup(team: string, period: Option<Period>): (r: Option<Lease>)
      reads this
      ensures r.Some? <==> Has(byTeam, team, PeriodOf(period))
    {
      if Has(byTeam, team, PeriodOf(period)) then Some(byTeam[team][PeriodOf(period)]) else None
    }

    /** The gate is team-wide: one failing hard lease, in either window, blocks. */
    method Blocked(team: string, now: int) returns (blocked: bool)
      ensures blocked <==> exists p :: Has(byTeam, team, p) && Refuses(byTeam[team][p], now)
    {
      var windows := [CalendarDay, CalendarMonth];
      for i := 0 to 2
        invariant forall j :: 0 <= j < i ==> !(Has(byTeam, team, windows[j]) && Refuses(byTeam[team][windows[j]], now))
      {
        var l := Lookup(team, Some(windows[i]));
        if l.Some? && l.value.hard {
          if now > l.value.expiresAt {
            return true;
          }
          if l.value.allowance <= 0 {
            return true;
          }
        }
      }
      forall p | Has(byTeam, team, p)
        ensures !Refuses(byTeam[team][p], now)
      {
        assert p == windows[0] || p == windows[1];
      }
      blocked := false;
    }
  }
}
