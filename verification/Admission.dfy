/**
 Admission and the limiter: what the rate, token and quota gates of an admission ask, what its verdict says about
 the answers, and how many requests a limit lets through when any number of admissions and settlements
 interleave between single limiter operations.
 */
module Admission {
  import opened Ints
  import opened Options
  import opened BudgetKeys
  import opened Governance
  import opened WindowSpend
  import BudgetStore
  import L = RateLimiter

  // ---- one admission --------------------------------------------------------------------------------

  /** The limiter operations of an admission with a team policy, and the states they are asked in. */
  datatype Asked = Asked(lim: L.Store, op: L.Op)

  predicate Yes(a: Asked, cap: nat, t: int) {
    L.StepAnswer(a.lim, cap, t, a.op) == L.Yes
  }

  predicate No(a: Asked, cap: nat, t: int) {
    L.StepAnswer(a.lim, cap, t, a.op) == L.No
  }

  function Then(a: Asked, cap: nat, t: int): L.Store {
    L.StepStore(a.lim, cap, t, a.op)
  }

  lemma {:induction false} TeamGatesMean(lim: L.Store, cap: nat, t: int, p: TeamPolicy, team: string, estimate: int)
    ensures var rate := Asked(lim, L.AllowRate("rate:" + team, 1, p.ratePerMin, Max(p.rateBurst, 1)));
            var tokens := Asked(Then(rate, cap, t), L.AllowRate("tpm:" + team, estimate, p.tokensPerMinute, p.tokensPerMinute));
            var quota := Asked(Then(tokens, cap, t),
                               L.CheckQuota("quota:" + team, estimate, p.tokensPerDay, 86_400_000_000_000));
            var r := PassGates(lim, cap, t, TeamGates(p, team, estimate));
            if No(rate, cap, t) then r == (Then(rate, cap, t), Some(TeamRate))
            else if No(tokens, cap, t) then r == (Then(tokens, cap, t), Some(TeamTokens))
            else if No(quota, cap, t) && p.quotaExceeded != "warn" then r == (Then(quota, cap, t), Some(TeamQuota))
            else r == (Then(quota, cap, t), None)
  {
    hide L.StepStore, L.StepAnswer;
    var g := TeamGates(p, team, estimate);
    assert g[1..][1..] == g[2..] && g[2..][1..] == [];
    var s1 := L.StepStore(lim, cap, t, g[0].op);
    var s2 := L.StepStore(s1, cap, t, g[1].op);
    assert PassGates(s2, cap, t, g[2..]) ==
           if L.StepAnswer(s2, cap, t, g[2].op) == L.No && g[2].fatal
           then (L.StepStore(s2, cap, t, g[2].op), Some(TeamQuota)) else (L.StepStore(s2, cap, t, g[2].op), None);
  }

  lemma {:induction false} KeyGatesMean(lim: L.Store, cap: nat, t: int, kp: KeyPolicy, keyID: string, estimate: int)
    ensures var rate := Asked(lim, L.AllowRate("rate:key:" + keyID, 1, kp.ratePerMin, kp.ratePerMin));
            var tokens := Asked(Then(rate, cap, t),
                                L.AllowRate("tpm:key:" + keyID, estimate, kp.tokensPerMinute, kp.tokensPerMinute));
            var r := PassGates(lim, cap, t, KeyGates(kp, keyID, estimate));
            if No(rate, cap, t) then r == (Then(rate, cap, t), Some(KeyRate))
            else if No(tokens, cap, t) then r == (Then(tokens, cap, t), Some(KeyTokens))
            else r == (Then(tokens, cap, t), None)
  {
    hide L.StepStore, L.StepAnswer;
    var g := KeyGates(kp, keyID, estimate);
    assert g[1..][1..] == [];
    var s1 := L.StepStore(lim, cap, t, g[0].op);
    assert PassGates(s1, cap, t, g[1..]) ==
           if L.StepAnswer(s1, cap, t, g[1].op) == L.No && g[1].fatal
           then (L.StepStore(s1, cap, t, g[1].op), Some(KeyTokens)) else (L.StepStore(s1, cap, t, g[1].op), None);
  }

  /** The verdict in terms of the two groups of gates. */
  lemma {:induction false} PreCheckGates(cfg: Config, bud: BudgetStore.Store, lim: L.Store, cap: nat, e: Env,
                                         s: Subject, kp: KeyPolicy, estimate: int)
    ensures var v, p := PreCheck(cfg, bud, lim, cap, e, s, kp, estimate).verdict, PolicyOf(cfg, s.team);
            var team := if p.Some? then PassGates(lim, cap, e.t, TeamGates(p.value, s.team, estimate)) else (lim, None);
            var key := PassGates(team.0, cap, e.t, KeyGates(kp, s.keyID, estimate));
            && (v.Allowed? ==> team.1.None? && key.1.None?)
            && (!cfg.leaseBlocked(s.team, e.t) && team.1.Some? ==> v == Denied(429, team.1.value, None))
            && (v.Denied? && v.status == 429 ==>
                  && !cfg.leaseBlocked(s.team, e.t)
                  && (team.1 == Some(v.code) || (team.1.None? && key.1 == Some(v.code))))
  {
    hide PassGates, TeamGates, KeyGates, CheckScope, BudgetOf;
  }

  /**
   What a verdict says about the team's limits, each asked in the state the one before left behind. Admission: the
   request rate and the token rate said yes, and so did the quota unless it only warns. A 429 that names one of
   them: it is the first that said no. Limits that are not positive say yes without being charged.
   */
  lemma {:induction false} TeamVerdict(cfg: Config, bud: BudgetStore.Store, lim: L.Store, cap: nat, e: Env, s: Subject,
                                       kp: KeyPolicy, estimate: int)
    requires PolicyOf(cfg, s.team).Some?
    ensures var p, v := PolicyOf(cfg, s.team).value, PreCheck(cfg, bud, lim, cap, e, s, kp, estimate).verdict;
            var rate := Asked(lim, L.AllowRate("rate:" + s.team, 1, p.ratePerMin, Max(p.rateBurst, 1)));
            var tokens := Asked(Then(rate, cap, e.t),
                                L.AllowRate("tpm:" + s.team, estimate, p.tokensPerMinute, p.tokensPerMinute));
            var quota := Asked(Then(tokens, cap, e.t),
                               L.CheckQuota("quota:" + s.team, estimate, p.tokensPerDay, 86_400_000_000_000));
            && (v.Allowed? ==> Yes(rate, cap, e.t) && Yes(tokens, cap, e.t))
            && (v.Allowed? && p.quotaExceeded != "warn" ==> Yes(quota, cap, e.t))
            && (v == Denied(429, TeamRate, None) <==> !cfg.leaseBlocked(s.team, e.t) && No(rate, cap, e.t))
            && (v == Denied(429, TeamTokens, None) <==>
                  !cfg.leaseBlocked(s.team, e.t) && Yes(rate, cap, e.t) && No(tokens, cap, e.t))
            && (v == Denied(429, TeamQuota, None) <==>
                  && !cfg.leaseBlocked(s.team, e.t) && Yes(rate, cap, e.t) && Yes(tokens, cap, e.t)
                  && No(quota, cap, e.t) && p.quotaExceeded != "warn")
  {
    var p := PolicyOf(cfg, s.team).value;
    PreCheckGates(cfg, bud, lim, cap, e, s, kp, estimate);
    hide PreCheck, PassGates, TeamGates, KeyGates, No, Yes, Then;
    TeamGatesMean(lim, cap, e.t, p, s.team, estimate);
    var rate := Asked(lim, L.AllowRate("rate:" + s.team, 1, p.ratePerMin, Max(p.rateBurst, 1)));
    var tokens := Asked(Then(rate, cap, e.t), L.AllowRate("tpm:" + s.team, estimate, p.tokensPerMinute, p.tokensPerMinute));
    var quota := Asked(Then(tokens, cap, e.t), L.CheckQuota("quota:" + s.team, estimate, p.tokensPerDay, 86_400_000_000_000));
    GateAnswers(rate, cap, e.t);
    GateAnswers(tokens, cap, e.t);
    GateAnswers(quota, cap, e.t);
    KeyGatesMean(PassGates(lim, cap, e.t, TeamGates(p, s.team, estimate)).0, cap, e.t, kp, s.keyID, estimate);
  }

  lemma {:induction false} GateAnswers(a: Asked, cap: nat, t: int)
    requires a.op.AllowRate? || a.op.CheckQuota?
    ensures Yes(a, cap, t) <==> !No(a, cap, t)
  {
    hide L.Ready, L.Current;
  }

  /** The limiter as the team's gates leave it; without a policy the team has none. */
  ghost function AfterTeam(cfg: Config, lim: L.Store, cap: nat, t: int, s: Subject, estimate: int): L.Store {
    match PolicyOf(cfg, s.team)
    case None => lim
    case Some(p) =>
      var rate := Asked(lim, L.AllowRate("rate:" + s.team, 1, p.ratePerMin, Max(p.rateBurst, 1)));
      var tokens := Asked(Then(rate, cap, t), L.AllowRate("tpm:" + s.team, estimate, p.tokensPerMinute, p.tokensPerMinute));
      Then(Asked(Then(tokens, cap, t), L.CheckQuota("quota:" + s.team, estimate, p.tokensPerDay, 86_400_000_000_000)), cap, t)
  }

  /** The same for the key's limits, which are asked after the team's and whatever the team's policy is. */
  lemma {:induction false} KeyVerdict(cfg: Config, bud: BudgetStore.Store, lim: L.Store, cap: nat, e: Env, s: Subject,
                                      kp: KeyPolicy, estimate: int)
    ensures var v := PreCheck(cfg, bud, lim, cap, e, s, kp, estimate).verdict;
            var rate := Asked(AfterTeam(cfg, lim, cap, e.t, s, estimate),
                              L.AllowRate("rate:key:" + s.keyID, 1, kp.ratePerMin, kp.ratePerMin));
            var tokens := Asked(Then(rate, cap, e.t),
                                L.AllowRate("tpm:key:" + s.keyID, estimate, kp.tokensPerMinute, kp.tokensPerMinute));
            && (v.Allowed? ==> Yes(rate, cap, e.t) && Yes(tokens, cap, e.t))
            && (v == Denied(429, KeyRate, None) ==> No(rate, cap, e.t))
            && (v == Denied(429, KeyTokens, None) ==> Yes(rate, cap, e.t) && No(tokens, cap, e.t))
            && (v.Denied? && v.status == 429 ==> v.code in {TeamRate, TeamTokens, TeamQuota, KeyRate, KeyTokens})
            && (v.Denied? && v.status == 429 && v.code in {TeamRate, TeamTokens, TeamQuota} ==> PolicyOf(cfg, s.team).Some?)
  {
    PreCheckGates(cfg, bud, lim, cap, e, s, kp, estimate);
    hide PreCheck, PassGates, TeamGates, KeyGates, No, Yes, Then;
    var after := AfterTeam(cfg, lim, cap, e.t, s, estimate);
    if PolicyOf(cfg, s.team).Some? {
      TeamGatesMean(lim, cap, e.t, PolicyOf(cfg, s.team).value, s.team, estimate);
      KeyGatesMean(PassGates(lim, cap, e.t, TeamGates(PolicyOf(cfg, s.team).value, s.team, estimate)).0, cap, e.t, kp,
                   s.keyID, estimate);
    }
    KeyGatesMean(after, cap, e.t, kp, s.keyID, estimate);
    hide AfterTeam;
    var rate := Asked(after, L.AllowRate("rate:key:" + s.keyID, 1, kp.ratePerMin, kp.ratePerMin));
    GateAnswers(rate, cap, e.t);
    GateAnswers(Asked(Then(rate, cap, e.t),
                      L.AllowRate("tpm:key:" + s.keyID, estimate, kp.tokensPerMinute, kp.tokensPerMinute)), cap, e.t);
  }

  /** What the store has on record for a subject in a window. */
  function Recorded(m: BudgetStore.Counters, scope: Scope, id: string, w: BudgetStore.Window, t: int): int {
    View(m, Key(scope, id, Tag(w, NoDuration)), t)
  }

  /** The team's policy: the dynamic record if there is one, else the static entry. */
  predicate Governs(cfg: Config, team: string, p: TeamPolicy) {
    cfg.lookup(team) == Some(p) || (cfg.lookup(team).None? && team in cfg.teams && cfg.teams[team] == p)
  }

  /**
   What admission says about money, on the numbers of the policies: with an open lease gate, no blocking budget of
   the team, the key or the user has more on record than its limit, in the calendar month or in the calendar day.
   */
  lemma {:induction false} AdmittedWithinLimits(cfg: Config, bud: BudgetStore.Store, lim: L.Store, cap: nat, e: Env,
                                                s: Subject, kp: KeyPolicy, estimate: int)
    requires Sane(bud, e) && PreCheck(cfg, bud, lim, cap, e, s, kp, estimate).verdict.Allowed?
    ensures !cfg.leaseBlocked(s.team, e.t)
    ensures var month, day := BudgetStore.CalMonth(e.zone), BudgetStore.CalDay(e.zone);
            && (forall p: TeamPolicy :: Governs(cfg, s.team, p) ==>
                  && (p.monthly > 0 && p.monthlyExceeded != "warn"
                      ==> Recorded(bud.m, TeamScope, s.team, month, e.t) <= p.monthly)
                  && (p.daily > 0 && p.dailyExceeded != "warn"
                      ==> Recorded(bud.m, TeamScope, s.team, day, e.t) <= p.daily))
            && (kp.monthly > 0 ==> Recorded(bud.m, KeyScope, s.keyID, month, e.t) <= kp.monthly)
            && (kp.daily > 0 ==> Recorded(bud.m, KeyScope, s.keyID, day, e.t) <= kp.daily)
            && (s.user != "" && cfg.users(s.team, s.user).Some? ==>
                  var u, id := cfg.users(s.team, s.user).value, s.team + "/" + s.user;
                  u.exceeded != "warn" ==>
                    && (u.monthly > 0 ==> Recorded(bud.m, UserScope, id, month, e.t) <= u.monthly)
                    && (u.daily > 0 ==> Recorded(bud.m, UserScope, id, day, e.t) <= u.daily))
  {
    VerdictMeans(cfg, bud, lim, cap, e, s, kp, estimate);
    assert ScopeWithin(cfg, bud.m, e, s, kp, TeamScope) && ScopeWithin(cfg, bud.m, e, s, kp, KeyScope);
    assert ScopeWithin(cfg, bud.m, e, s, kp, UserScope);
    hide PreCheck, Quiet, Sane, AllWithin, ScopeWithin, Recorded;
    TeamOver(cfg, bud.m, e, s, kp);
    KeyOver(cfg, bud.m, e, s, kp);
    UserOver(cfg, bud.m, e, s, kp);
  }

  lemma {:induction false} TeamOver(cfg: Config, m: BudgetStore.Counters, e: Env, s: Subject, kp: KeyPolicy)
    ensures var month, day := BudgetStore.CalMonth(e.zone), BudgetStore.CalDay(e.zone);
            !ScopeWithin(cfg, m, e, s, kp, TeamScope) <==>
            PolicyOf(cfg, s.team).Some?
            && var p := PolicyOf(cfg, s.team).value;
               || (p.monthly > 0 && p.monthlyExceeded != "warn" && Recorded(m, TeamScope, s.team, month, e.t) > p.monthly)
               || (p.daily > 0 && p.dailyExceeded != "warn" && Recorded(m, TeamScope, s.team, day, e.t) > p.daily)
  {
    hide View, Key;
  }

  lemma {:induction false} KeyOver(cfg: Config, m: BudgetStore.Counters, e: Env, s: Subject, kp: KeyPolicy)
    ensures var month, day := BudgetStore.CalMonth(e.zone), BudgetStore.CalDay(e.zone);
            !ScopeWithin(cfg, m, e, s, kp, KeyScope) <==>
            || (kp.monthly > 0 && Recorded(m, KeyScope, s.keyID, month, e.t) > kp.monthly)
            || (kp.daily > 0 && Recorded(m, KeyScope, s.keyID, day, e.t) > kp.daily)
  {
    hide View, Key;
  }

  lemma {:induction false} UserOver(cfg: Config, m: BudgetStore.Counters, e: Env, s: Subject, kp: KeyPolicy)
    ensures var month, day := BudgetStore.CalMonth(e.zone), BudgetStore.CalDay(e.zone);
            !ScopeWithin(cfg, m, e, s, kp, UserScope) <==>
            s.user != "" && cfg.users(s.team, s.user).Some?
            && var u, id := cfg.users(s.team, s.user).value, s.team + "/" + s.user;
               && u.exceeded != "warn"
               && ((u.monthly > 0 && Recorded(m, UserScope, id, month, e.t) > u.monthly)
                   || (u.daily > 0 && Recorded(m, UserScope, id, day, e.t) > u.daily))
  {
    hide View, Key;
  }

  /** A closed lease gate denies before anything is charged. */
  lemma {:induction false} ClosedGateDenies(cfg: Config, bud: BudgetStore.Store, lim: L.Store, cap: nat, e: Env,
                                            s: Subject, kp: KeyPolicy, estimate: int)
    requires cfg.leaseBlocked(s.team, e.t)
    ensures PreCheck(cfg, bud, lim, cap, e, s, kp, estimate) == Outcome(bud, lim, Denied(402, TeamBudget, None))
  {
    hide PassGates, CheckScope, TeamGates, KeyGates, BudgetOf;
  }

  /**
   What a budget denial says, on the numbers of the policies: unless the store has run full, the scope it names has
   a blocking budget with more on record than its limit. Budgets that only warn never deny.
   */
  lemma {:induction false} DeniedOverLimit(cfg: Config, bud: BudgetStore.Store, lim: L.Store, cap: nat, e: Env,
                                           s: Subject, kp: KeyPolicy, estimate: int)
    requires Sane(bud, e)
    requires var v := PreCheck(cfg, bud, lim, cap, e, s, kp, estimate).verdict; v.Denied? && v.resetsAt.Some?
    ensures var month, day := BudgetStore.CalMonth(e.zone), BudgetStore.CalDay(e.zone);
            var r := PreCheck(cfg, bud, lim, cap, e, s, kp, estimate);
            && r.verdict.status == 402 && r.verdict.code in {TeamBudget, KeyBudget, UserBudget}
            && (|BudgetStore.Live(r.bud.m, e.t)| < e.cap ==>
                  match r.verdict.code
                  case TeamBudget =>
                    PolicyOf(cfg, s.team).Some?
                    && var p := PolicyOf(cfg, s.team).value;
                       || (p.monthly > 0 && p.monthlyExceeded != "warn"
                           && Recorded(bud.m, TeamScope, s.team, month, e.t) > p.monthly)
                       || (p.daily > 0 && p.dailyExceeded != "warn"
                           && Recorded(bud.m, TeamScope, s.team, day, e.t) > p.daily)
                  case KeyBudget =>
                    || (kp.monthly > 0 && Recorded(bud.m, KeyScope, s.keyID, month, e.t) > kp.monthly)
                    || (kp.daily > 0 && Recorded(bud.m, KeyScope, s.keyID, day, e.t) > kp.daily)
                  case _ =>
                    s.user != "" && cfg.users(s.team, s.user).Some?
                    && var u, id := cfg.users(s.team, s.user).value, s.team + "/" + s.user;
                       && u.exceeded != "warn"
                       && ((u.monthly > 0 && Recorded(bud.m, UserScope, id, month, e.t) > u.monthly)
                           || (u.daily > 0 && Recorded(bud.m, UserScope, id, day, e.t) > u.daily)))
  {
    VerdictMeans(cfg, bud, lim, cap, e, s, kp, estimate);
    hide *;
    TeamOver(cfg, bud.m, e, s, kp);
    KeyOver(cfg, bud.m, e, s, kp);
    UserOver(cfg, bud.m, e, s, kp);
    ScopeCodes();
  }

  lemma {:induction false} ScopeCodes()
    ensures forall c: Code :: ScopeOf(c).Some? ==> c in {TeamBudget, KeyBudget, UserBudget}
    ensures ScopeOf(TeamBudget) == Some(TeamScope) && ScopeOf(KeyBudget) == Some(KeyScope)
    ensures ScopeOf(UserBudget) == Some(UserScope)
  {
  }
}
