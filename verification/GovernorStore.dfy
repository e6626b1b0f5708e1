/** The governor as the running object: it drives the two mutable stores, call by call. */
module GovernorStore {
  import opened Ints
  import opened Options
  import opened BudgetStore
  import opened BudgetKeys
  import opened WindowSpend
  import opened Governance
  import L = RateLimiter
  import LimiterStore

  class Governor {
    const cfg: Config
    const bud: BudgetStore.Memory
    const lim: LimiterStore.Memory

    constructor (cfg: Config, bud: BudgetStore.Memory, lim: LimiterStore.Memory)
      ensures this.cfg == cfg && this.bud == bud && this.lim == lim
    {
      this.cfg, this.bud, this.lim := cfg, bud, lim;
    }

    function EnvAt(t: int): Env {
      Env(bud.maxEntries, bud.cal, cfg.zone, t)
    }

    method CheckOneBudget(b: Budget, t: int) returns (deny: Option<int>)
      requires bud.Valid()
      modifies bud
      ensures bud.Valid()
      ensures (bud.Contents(), deny) == CheckBudget(old(bud.Contents()), EnvAt(t), b)
    {
      hide KeyOf, Touch, Wrap64;
      if b.limit <= 0 {
        return None;
      }
      var k, w := KeyOf(cfg.zone, b.scope, b.id, b.kind), WindowOf(cfg.zone, b.kind);
      var d := bud.CheckLimit(k, 0, b.limit, w, t);
      if MustDeny(d, b.warn) {
        var at := bud.ResetTime(k, w, t);
        return Some(at);
      }
      deny := None;
    }

    method CheckBothWindows(month: Budget, day: Budget, t: int) returns (deny: Option<int>)
      requires bud.Valid()
      modifies bud
      ensures bud.Valid()
      ensures (bud.Contents(), deny) == CheckScope(old(bud.Contents()), EnvAt(t), month, day)
    {
      hide CheckBudget;
      deny := CheckOneBudget(month, t);
      var second := CheckOneBudget(day, t);
      if second.Some? {
        if deny.None? || second.value < deny.value {
          deny := second;
        }
      }
    }

    method PassTeamGates(p: TeamPolicy, team: string, estimate: int, t: int) returns (code: Option<Code>)
      modifies lim
      ensures (lim.Contents(), code) == PassGates(old(lim.Contents()), lim.maxEntries, t, TeamGates(p, team, estimate))
    {
      hide L.StepStore, L.StepAnswer;
      ghost var was, cap, gates := lim.Contents(), lim.maxEntries, TeamGates(p, team, estimate);
      assert gates[1..][1..] == gates[2..] && gates[2..][1..] == [];
      var ok := lim.Allow("rate:" + team, 1, p.ratePerMin, Max(p.rateBurst, 1), t);
      if !ok {
        return Some(TeamRate);
      }
      assert PassGates(was, cap, t, gates) == PassGates(lim.Contents(), cap, t, gates[1..]);
      ok := lim.Allow("tpm:" + team, estimate, p.tokensPerMinute, p.tokensPerMinute, t);
      if !ok {
        return Some(TeamTokens);
      }
      assert PassGates(was, cap, t, gates) == PassGates(lim.Contents(), cap, t, gates[2..]);
      ok := lim.WithinQuota("quota:" + team, estimate, p.tokensPerDay, DAY, t);
      if !ok && p.quotaExceeded != "warn" {
        return Some(TeamQuota);
      }
      code := None;
    }

    method PassKeyGates(kp: KeyPolicy, keyID: string, estimate: int, t: int) returns (code: Option<Code>)
      modifies lim
      ensures (lim.Contents(), code) == PassGates(old(lim.Contents()), lim.maxEntries, t, KeyGates(kp, keyID, estimate))
    {
      hide L.StepStore, L.StepAnswer;
      ghost var was, cap, gates := lim.Contents(), lim.maxEntries, KeyGates(kp, keyID, estimate);
      assert gates[1..][1..] == [];
      var ok := lim.Allow("rate:key:" + keyID, 1, kp.ratePerMin, kp.ratePerMin, t);
      if !ok {
        return Some(KeyRate);
      }
      assert PassGates(was, cap, t, gates) == PassGates(lim.Contents(), cap, t, gates[1..]);
      ok := lim.Allow("tpm:key:" + keyID, estimate, kp.tokensPerMinute, kp.tokensPerMinute, t);
      if !ok {
        return Some(KeyTokens);
      }
      code := None;
    }

    /** Everything a request must pass before it is sent upstream. */
    method Admit(s: Subject, kp: KeyPolicy, estimate: int, t: int) returns (v: Verdict)
      requires bud.Valid()
      modifies bud, lim
      ensures bud.Valid()
      ensures Outcome(bud.Contents(), lim.Contents(), v)
              == PreCheck(cfg, old(bud.Contents()), old(lim.Contents()), lim.maxEntries, EnvAt(t), s, kp, estimate)
    {
      hide CheckScope, PassGates, TeamGates, KeyGates, BudgetOf;
      if cfg.leaseBlocked(s.team, t) {
        return Denied(402, TeamBudget, None);
      }
      var p := PolicyOf(cfg, s.team);
      if p.Some? {
        var code := PassTeamGates(p.value, s.team, estimate, t);
        if code.Some? {
          return Denied(429, code.value, None);
        }
      }
      var deny := CheckBothWindows(BudgetOf(cfg, s, kp, TeamScope, Monthly), BudgetOf(cfg, s, kp, TeamScope, Daily), t);
      if deny.Some? {
        return Denied(402, TeamBudget, deny);
      }
      var code := PassKeyGates(kp, s.keyID, estimate, t);
      if code.Some? {
        return Denied(429, code.value, None);
      }
      deny := CheckBothWindows(BudgetOf(cfg, s, kp, KeyScope, Monthly), BudgetOf(cfg, s, kp, KeyScope, Daily), t);
      if deny.Some? {
        return Denied(402, KeyBudget, deny);
      }
      deny := CheckBothWindows(BudgetOf(cfg, s, kp, UserScope, Monthly), BudgetOf(cfg, s, kp, UserScope, Daily), t);
      if deny.Some? {
        return Denied(402, UserBudget, deny);
      }
      v := Allowed;
    }

    method Charge(b: Budget, cost: int, readBack: bool, t: int)
      requires bud.Valid()
      modifies bud
      ensures bud.Valid()
      ensures bud.Contents()
              == RunStore(old(bud.Contents()), bud.maxEntries, bud.cal, ChargeOps(cfg.zone, t, b, cost, readBack))
    {
      hide KeyOf, StepStore;
      if b.limit > 0 {
        var k, w := KeyOf(cfg.zone, b.scope, b.id, b.kind), WindowOf(cfg.zone, b.kind);
        ghost var debit, read := Timed(t, Debit(k, cost, w)), Timed(t, Spent(k, w));
        assert [debit][..0] == [] && ([debit] + [read])[..1] == [debit] && [debit] + [] == [debit];
        bud.DebitSpend(k, cost, w, t);
        assert bud.Contents() == RunStore(old(bud.Contents()), bud.maxEntries, bud.cal, [debit]);
        if readBack {
          var _ := bud.SpentOf(k, w, t);
        }
      }
    }

    method ChargeScope(s: Subject, kp: KeyPolicy, cost: int, scope: Scope, readBack: bool, t: int)
      requires bud.Valid()
      modifies bud
      ensures bud.Valid()
      ensures bud.Contents()
              == RunStore(old(bud.Contents()), bud.maxEntries, bud.cal, ScopeOps(cfg, t, s, kp, cost, scope, readBack))
    {
      hide BudgetOf, ChargeOps, RunStore;
      var m, d := BudgetOf(cfg, s, kp, scope, Monthly), BudgetOf(cfg, s, kp, scope, Daily);
      RunConcat(bud.Contents(), bud.maxEntries, bud.cal,
                ChargeOps(cfg.zone, t, m, cost, readBack), ChargeOps(cfg.zone, t, d, cost, false));
      Charge(m, cost, readBack, t);
      Charge(d, cost, false, t);
    }

    /** What a finished request is charged, in tokens and in money. */
    method SettleRequest(s: Subject, kp: KeyPolicy, cost: int, estimated: int, actual: int, t: int)
      requires bud.Valid()
      modifies bud, lim
      ensures bud.Valid()
      ensures bud.Contents() == RunStore(old(bud.Contents()), bud.maxEntries, bud.cal, SettleOps(cfg, t, s, kp, cost))
      ensures lim.Contents() == SettleLimiter(cfg, old(lim.Contents()), lim.maxEntries, t, s, kp, estimated, actual)
    {
      hide ScopeOps, RunStore, L.StepStore;
      var p := PolicyOf(cfg, s.team);
      if p.Some? && p.value.tokensPerDay > 0 {
        lim.DebitUsage("quota:" + s.team, actual, DAY, t);
      }
      if p.Some? && p.value.tokensPerMinute > 0 {
        lim.Adjust("tpm:" + s.team, estimated - actual, p.value.tokensPerMinute, t);
      }
      if kp.tokensPerMinute > 0 {
        lim.Adjust("tpm:key:" + s.keyID, estimated - actual, kp.tokensPerMinute, t);
      }
      ghost var a := ScopeOps(cfg, t, s, kp, cost, TeamScope, true);
      ghost var b := ScopeOps(cfg, t, s, kp, cost, KeyScope, cfg.keyAlerts);
      ghost var c := ScopeOps(cfg, t, s, kp, cost, UserScope, false);
      RunConcat(bud.Contents(), bud.maxEntries, bud.cal, a, b);
      RunConcat(bud.Contents(), bud.maxEntries, bud.cal, a + b, c);
      ChargeScope(s, kp, cost, TeamScope, true, t);
      ChargeScope(s, kp, cost, KeyScope, cfg.keyAlerts, t);
      ChargeScope(s, kp, cost, UserScope, false, t);
    }
  }

  lemma {:induction false} RunConcat(s: Store, cap: nat, cal: Calendar, a: seq<Timed>, b: seq<Timed>)
    ensures RunStore(s, cap, cal, a + b) == RunStore(RunStore(s, cap, cal, a), cap, cal, b)
    decreases |b|
  {
    hide StepStore;
    if b == [] {
      assert a + b == a;
    } else {
      assert (a + b)[..|a + b| - 1] == a + b[..|b| - 1];
      RunConcat(s, cap, cal, a, b[..|b| - 1]);
    }
  }
}
