/**
 The governor: the checks a request passes before it is sent upstream (lease gate, rates, quota, and two
 budget windows in each of three scopes), and what is charged once its cost is known. The functions say
 what a call does to the stores; the lemmas say what an admission means and whom a settlement reaches.
 */
module Governance {
  import opened Ints
  import opened Sums
  import opened Options
  import opened BudgetStore
  import opened BudgetKeys
  import opened WindowSpend
  import L = RateLimiter

  datatype Subject = Subject(team: string, keyID: string, user: string)

  /** A limit of zero means unlimited in that dimension. */
  datatype TeamPolicy = TeamPolicy(
    ratePerMin: int, rateBurst: int, tokensPerMinute: int, tokensPerDay: int, quotaExceeded: string,
    monthly: int, monthlyExceeded: string, daily: int, dailyExceeded: string)

  datatype KeyPolicy = KeyPolicy(ratePerMin: int, tokensPerMinute: int, monthly: int, daily: int)

  datatype UserPolicy = UserPolicy(monthly: int, daily: int, exceeded: string)

  datatype Config = Config(
    lookup: string -> Option<TeamPolicy>,          // console record or policy document, if any
    teams: map<string, TeamPolicy>,                // static configuration
    users: (string, string) -> Option<UserPolicy>,
    leaseBlocked: (string, int) -> bool,
    zone: string,
    keyAlerts: bool)

  datatype Kind = Monthly | Daily

  /** One budget a request is subject to. */
  datatype Budget = Budget(scope: Scope, id: string, kind: Kind, limit: int, warn: bool)

  function WindowOf(zone: string, kind: Kind): Window {
    if kind.Monthly? then CalMonth(zone) else CalDay(zone)
  }

  function NoDuration(d: int): string {
    ""
  }

  function KeyOf(zone: string, scope: Scope, id: string, kind: Kind): string {
    Key(scope, id, Tag(WindowOf(zone, kind), NoDuration))
  }

  /** A dynamic hit wins over the static entry of the same name. */
  function PolicyOf(cfg: Config, team: string): Option<TeamPolicy> {
    if cfg.lookup(team).Some? then cfg.lookup(team)
    else if team in cfg.teams then Some(cfg.teams[team]) else None
  }

  function IdOf(s: Subject, scope: Scope): string {
    match scope
    case TeamScope => s.team
    case KeyScope => s.keyID
    case UserScope => UserId(s.team, s.user)
  }

  /** The budget of one scope and window; a missing policy leaves its limit at zero. */
  function BudgetOf(cfg: Config, s: Subject, kp: KeyPolicy, scope: Scope, kind: Kind): Budget {
    match scope
    case TeamScope =>
      (match PolicyOf(cfg, s.team)
       case Some(p) => if kind.Monthly? then Budget(scope, s.team, kind, p.monthly, p.monthlyExceeded == "warn")
                       else Budget(scope, s.team, kind, p.daily, p.dailyExceeded == "warn")
       case None => Budget(scope, s.team, kind, 0, false))
    case KeyScope => Budget(scope, s.keyID, kind, if kind.Monthly? then kp.monthly else kp.daily, false)
    case UserScope =>
      if s.user == "" then Budget(scope, IdOf(s, scope), kind, 0, false)
      else match cfg.users(s.team, s.user)
           case Some(p) => Budget(scope, IdOf(s, scope), kind, if kind.Monthly? then p.monthly else p.daily,
                                  p.exceeded == "warn")
           case None => Budget(scope, IdOf(s, scope), kind, 0, false)
  }

  /** A capacity refusal is unconditional; a real breach honours a warn policy. */
  predicate MustDeny(d: Decision, warn: bool) {
    d == BlockCapacity || (d == Block && !warn)
  }

  datatype Env = Env(cap: nat, cal: Calendar, zone: string, t: int)

  // ---- budget checks --------------------------------------------------------------------------------

  function CheckOp(e: Env, b: Budget): Op {
    Check(KeyOf(e.zone, b.scope, b.id, b.kind), 0, b.limit, WindowOf(e.zone, b.kind))
  }

  function ResetOp(e: Env, b: Budget): Op {
    ResetsAt(KeyOf(e.zone, b.scope, b.id, b.kind), WindowOf(e.zone, b.kind))
  }

  predicate Denies(s: Store, e: Env, b: Budget) {
    b.limit > 0 && MustDeny(StepAnswer(s, e.cap, e.cal, e.t, CheckOp(e, b)).d, b.warn)
  }

  /** One window: the store afterwards and, when it denies, when the window resets. */
  function CheckBudget(s: Store, e: Env, b: Budget): (Store, Option<int>) {
    if b.limit <= 0 then (s, None)
    else
      var s1 := StepStore(s, e.cap, e.cal, e.t, CheckOp(e, b));
      if Denies(s, e, b)
      then (StepStore(s1, e.cap, e.cal, e.t, ResetOp(e, b)),
            Some(StepAnswer(s1, e.cap, e.cal, e.t, ResetOp(e, b)).time))
      else (s1, None)
  }

  /** Both windows of a scope; when both deny, the reset reported is the sooner one. */
  function CheckScope(s: Store, e: Env, month: Budget, day: Budget): (Store, Option<int>) {
    var m := CheckBudget(s, e, month);
    var d := CheckBudget(m.0, e, day);
    (d.0, if d.1.Some? && (m.1.None? || d.1.value < m.1.value) then d.1 else m.1)
  }

  // ---- rate checks ----------------------------------------------------------------------------------

  datatype Code =
    | TeamRate | TeamTokens | TeamQuota | TeamBudget | KeyRate | KeyTokens | KeyBudget | UserBudget

  datatype Gate = Gate(op: L.Op, fatal: bool, code: Code)

  const DAY: int := 86_400_000_000_000

  function TeamGates(p: TeamPolicy, team: string, estimate: int): seq<Gate> {
    [Gate(L.AllowRate("rate:" + team, 1, p.ratePerMin, Max(p.rateBurst, 1)), true, TeamRate),
     Gate(L.AllowRate("tpm:" + team, estimate, p.tokensPerMinute, p.tokensPerMinute), true, TeamTokens),
     Gate(L.CheckQuota("quota:" + team, estimate, p.tokensPerDay, DAY), p.quotaExceeded != "warn", TeamQuota)]
  }

  function KeyGates(kp: KeyPolicy, keyID: string, estimate: int): seq<Gate> {
    [Gate(L.AllowRate("rate:key:" + keyID, 1, kp.ratePerMin, kp.ratePerMin), true, KeyRate),
     Gate(L.AllowRate("tpm:key:" + keyID, estimate, kp.tokensPerMinute, kp.tokensPerMinute), true, KeyTokens)]
  }

  /** Gates in order, up to the first fatal refusal; what was charged before it stays charged. */
  function PassGates(s: L.Store, cap: nat, t: int, gates: seq<Gate>): (L.Store, Option<Code>)
    decreases |gates|
  {
    if gates == [] then (s, None)
    else
      var next := L.StepStore(s, cap, t, gates[0].op);
      if L.StepAnswer(s, cap, t, gates[0].op) == L.No && gates[0].fatal then (next, Some(gates[0].code))
      else PassGates(next, cap, t, gates[1..])
  }

  // ---- admission ------------------------------------------------------------------------------------

  datatype Verdict = Allowed | Denied(status: int, code: Code, resetsAt: Option<int>)

  datatype Outcome = Outcome(bud: Store, lim: L.Store, verdict: Verdict)

  function PreCheck(cfg: Config, bud: Store, lim: L.Store, limCap: nat, e: Env, s: Subject, kp: KeyPolicy,
                    estimate: int): Outcome {
    if cfg.leaseBlocked(s.team, e.t) then Outcome(bud, lim, Denied(402, TeamBudget, None))
    else
      var p := PolicyOf(cfg, s.team);
      var g := if p.Some? then PassGates(lim, limCap, e.t, TeamGates(p.value, s.team, estimate)) else (lim, None);
      if g.1.Some? then Outcome(bud, g.0, Denied(429, g.1.value, None))
      else
        var team := CheckScope(bud, e, BudgetOf(cfg, s, kp, TeamScope, Monthly), BudgetOf(cfg, s, kp, TeamScope, Daily));
        if team.1.Some? then Outcome(team.0, g.0, Denied(402, TeamBudget, team.1))
        else
          var k := PassGates(g.0, limCap, e.t, KeyGates(kp, s.keyID, estimate));
          if k.1.Some? then Outcome(team.0, k.0, Denied(429, k.1.value, None))
          else
            var key := CheckScope(team.0, e, BudgetOf(cfg, s, kp, KeyScope, Monthly), BudgetOf(cfg, s, kp, KeyScope, Daily));
            if key.1.Some? then Outcome(key.0, k.0, Denied(402, KeyBudget, key.1))
            else
              var user := CheckScope(key.0, e, BudgetOf(cfg, s, kp, UserScope, Monthly),
                                     BudgetOf(cfg, s, kp, UserScope, Daily));
              if user.1.Some? then Outcome(user.0, k.0, Denied(402, UserBudget, user.1))
              else Outcome(user.0, k.0, Allowed)
  }

  /** Checking changes nothing anyone can see of any counter, and loses none. */
  ghost predicate Quiet(m: Counters, m': Counters, t: int) {
    && (forall k :: View(m', k, t) == View(m, k, t))
    && (forall k :: LiveAt(m, k, t) ==> LiveAt(m', k, t))
  }

  lemma {:induction false} OpQuiet(s: Store, cap: nat, cal: Calendar, t: int, op: Op)
    requires !op.Debit?
    ensures Quiet(s.m, StepStore(s, cap, cal, t, op).m, t)
  {
    hide StepStore, View;
    forall k
      ensures View(StepStore(s, cap, cal, t, op).m, k, t) == View(s.m, k, t)
      ensures LiveAt(s.m, k, t) ==> LiveAt(StepStore(s, cap, cal, t, op).m, k, t)
    {
      OpAt(s, cap, cal, t, op, k);
    }
  }

  lemma {:induction false} CheckQuiet(s: Store, e: Env, b: Budget)
    ensures Quiet(s.m, CheckBudget(s, e, b).0.m, e.t)
  {
    hide StepStore, StepAnswer, View, KeyOf;
    if b.limit > 0 {
      OpQuiet(s, e.cap, e.cal, e.t, CheckOp(e, b));
      OpQuiet(StepStore(s, e.cap, e.cal, e.t, CheckOp(e, b)), e.cap, e.cal, e.t, ResetOp(e, b));
    }
  }

  ghost predicate Ranged(m: Counters) {
    forall k :: k in m ==> -MAX_INT64 - 1 <= m[k].spent <= MAX_INT64
  }

  /** What one window's verdict says about the spend it was checked against. */
  lemma {:induction false} CheckMeans(s: Store, e: Env, b: Budget)
    requires b.limit > 0 && Ranged(s.m) && |s.m| <= e.cap
    ensures var k := KeyOf(e.zone, b.scope, b.id, b.kind);
            var full := k !in s.m && |Live(s.m, e.t)| >= e.cap;
            CheckBudget(s, e, b).1.Some? <==> full || (!b.warn && View(s.m, k, e.t) > b.limit)
  {
    hide Touch, Wrap64, KeyOf;
    var k, w := KeyOf(e.zone, b.scope, b.id, b.kind), WindowOf(e.zone, b.kind);
    TouchAt(s, e.cap, e.cal, e.t, k, w, k);
    TouchRefusal(s, e.cap, e.cal, e.t, k, w);
    WrapSmall(View(s.m, k, e.t));
  }

  /** A blocking budget is within its limit as far as the store knows. */
  predicate Within(m: Counters, e: Env, b: Budget) {
    b.limit > 0 && !b.warn ==> View(m, KeyOf(e.zone, b.scope, b.id, b.kind), e.t) <= b.limit
  }

  /** The store is consistent: within capacity, and holding int64 amounts. */
  ghost predicate Sane(s: Store, e: Env) {
    |s.m| <= e.cap && Ranged(s.m)
  }

  lemma {:induction false} StepSane(s: Store, e: Env, op: Op)
    requires Sane(s, e)
    ensures Sane(StepStore(s, e.cap, e.cal, e.t, op), e)
  {
    hide Touch, Wrap64;
    if NeedsCounter(op) {
      TouchBounded(s, e.cap, e.cal, e.t, op.key, op.w);
      var u := Touch(s, e.cap, e.cal, e.t, op.key, op.w);
      forall k | k in u.m
        ensures -MAX_INT64 - 1 <= u.m[k].spent <= MAX_INT64
      {
        TouchStored(s, e.cap, e.cal, e.t, op.key, op.w, k);
      }
      if op.key in u.m {
        SizeUpdate(u.m, op.key, Apply(op, u.m[op.key]));
        if op.Debit? {
          WrapRange(u.m[op.key].spent + op.amount);
        }
      }
    }
  }

  /** Everything in the map after a touch was there before, or was opened at zero. */
  lemma {:induction false} TouchStored(s: Store, cap: nat, cal: Calendar, t: int, key: string, w: Window, k: string)
    requires k in Touch(s, cap, cal, t, key, w).m
    ensures Touch(s, cap, cal, t, key, w).m[k].spent == 0 || (k in s.m && Touch(s, cap, cal, t, key, w).m[k] == s.m[k])
  {
  }

  /** A window's check opens no counter but its own. */
  lemma {:induction false} CheckOpensOne(s: Store, e: Env, b: Budget)
    ensures |Live(CheckBudget(s, e, b).0.m, e.t)| <= |Live(s.m, e.t)| + 1
  {
    hide StepStore, StepAnswer, KeyOf;
    var k := KeyOf(e.zone, b.scope, b.id, b.kind);
    var s1 := StepStore(s, e.cap, e.cal, e.t, CheckOp(e, b));
    var after := CheckBudget(s, e, b).0;
    forall j | LiveAt(after.m, j, e.t) && j != k
      ensures LiveAt(s.m, j, e.t)
    {
      OpAt(s, e.cap, e.cal, e.t, CheckOp(e, b), j);
      OpAt(s1, e.cap, e.cal, e.t, ResetOp(e, b), j);
    }
    var before, now := Live(s.m, e.t), Live(after.m, e.t);
    forall j | j in now
      ensures j in before.Keys + {k}
    {
      assert LiveAt(after.m, j, e.t);
    }
    SubsetSize(now.Keys, before.Keys + {k});
    SizeOfOneMore(before.Keys, k);
    assert |now| == |now.Keys| && |before| == |before.Keys|;
  }

  lemma {:induction false} SizeOfOneMore(a: set<string>, k: string)
    ensures |a + {k}| <= |a| + 1
  {
    if k in a {
      assert a + {k} == a;
    }
  }

  lemma {:induction false} LiveGrows(m: Counters, m': Counters, t: int)
    requires Quiet(m, m', t)
    ensures |Live(m, t)| <= |Live(m', t)|
  {
    hide View;
    var a, b := Live(m, t), Live(m', t);
    assert forall k :: k in a ==> LiveAt(m, k, t);
    assert a.Keys <= b.Keys;
    SubsetSize(a.Keys, b.Keys);
    assert |a| == |a.Keys| && |b| == |b.Keys|;
  }

  lemma {:induction false} QuietTwice(a: Counters, b: Counters, c: Counters, t: int)
    requires Quiet(a, b, t) && Quiet(b, c, t)
    ensures Quiet(a, c, t)
  {
    hide View;
  }

  lemma {:induction false} CheckSane(s: Store, e: Env, b: Budget)
    requires Sane(s, e)
    ensures Sane(CheckBudget(s, e, b).0, e)
  {
    hide StepStore, StepAnswer, Ranged;
    StepSane(s, e, CheckOp(e, b));
    StepSane(StepStore(s, e.cap, e.cal, e.t, CheckOp(e, b)), e, ResetOp(e, b));
  }

  /** One window: it denies only past its limit or when the store is full, and past its limit it does deny. */
  lemma {:induction false} CheckVerdict(s: Store, e: Env, b: Budget)
    requires Sane(s, e)
    ensures !Within(s.m, e, b) ==> CheckBudget(s, e, b).1.Some?
    ensures CheckBudget(s, e, b).1.Some? ==> !Within(s.m, e, b) || |Live(s.m, e.t)| >= e.cap
    ensures Quiet(s.m, CheckBudget(s, e, b).0.m, e.t) && Sane(CheckBudget(s, e, b).0, e)
    ensures |Live(CheckBudget(s, e, b).0.m, e.t)| <= |Live(s.m, e.t)| + 1
  {
    hide StepStore, StepAnswer, View, KeyOf, Quiet, Live;
    if b.limit > 0 {
      CheckMeans(s, e, b);
    }
    CheckQuiet(s, e, b);
    CheckSane(s, e, b);
    CheckOpensOne(s, e, b);
  }

  lemma {:induction false} QuietWithin(m: Counters, m': Counters, e: Env, b: Budget)
    requires Quiet(m, m', e.t)
    ensures Within(m', e, b) <==> Within(m, e, b)
  {
    hide View, KeyOf;
  }

  /** Both windows of a scope. */
  lemma {:induction false} ScopeVerdict(s: Store, e: Env, month: Budget, day: Budget)
    requires Sane(s, e)
    ensures var r := CheckScope(s, e, month, day);
            && (!Within(s.m, e, month) || !Within(s.m, e, day) ==> r.1.Some?)
            && (r.1.Some? ==> !Within(s.m, e, month) || !Within(s.m, e, day) || |Live(r.0.m, e.t)| >= e.cap)
            && Quiet(s.m, r.0.m, e.t) && Sane(r.0, e)
            && |Live(r.0.m, e.t)| <= |Live(s.m, e.t)| + 2
  {
    hide CheckBudget, Within, Quiet, Sane, Live;
    var m := CheckBudget(s, e, month);
    CheckVerdict(s, e, month);
    CheckVerdict(m.0, e, day);
    QuietWithin(s.m, m.0.m, e, day);
    var d := CheckBudget(m.0, e, day);
    QuietTwice(s.m, m.0.m, d.0.m, e.t);
    LiveGrows(s.m, m.0.m, e.t);
    LiveGrows(m.0.m, d.0.m, e.t);
  }

  /** When the window a counter is read against ends: its own end while it is open, else that of a new one. */
  function ResetAt(m: Counters, cal: Calendar, t: int, k: string, w: Window): int {
    if LiveAt(m, k, t) then m[k].end else WindowEnd(cal, t, w)
  }

  lemma {:induction false} TouchKeepsReset(s: Store, cap: nat, cal: Calendar, t: int, key: string, w: Window,
                                           k: string, v: Window)
    requires key == k ==> w == v
    ensures ResetAt(Touch(s, cap, cal, t, key, w).m, cal, t, k, v) == ResetAt(s.m, cal, t, k, v)
    ensures k == key && k in Touch(s, cap, cal, t, key, w).m
            ==> Touch(s, cap, cal, t, key, w).m[k].end == ResetAt(s.m, cal, t, k, v)
    ensures LiveAt(s.m, k, t) ==> k in Touch(s, cap, cal, t, key, w).m
  {
    hide WindowEnd;
  }

  lemma {:induction false} OpKeepsReset(s: Store, cap: nat, cal: Calendar, t: int, op: Op, k: string, v: Window)
    requires !op.Debit? && (op.key == k ==> op.w == v)
    ensures ResetAt(StepStore(s, cap, cal, t, op).m, cal, t, k, v) == ResetAt(s.m, cal, t, k, v)
    ensures op.ResetsAt? && op.key == k ==> StepAnswer(s, cap, cal, t, op) == At(ResetAt(s.m, cal, t, k, v))
  {
    hide Touch, WindowEnd;
    TouchKeepsReset(s, cap, cal, t, op.key, op.w, k, v);
  }

  function ResetOf(m: Counters, e: Env, b: Budget): int {
    ResetAt(m, e.cal, e.t, KeyOf(e.zone, b.scope, b.id, b.kind), WindowOf(e.zone, b.kind))
  }

  /** A window that denies reports its own end, and checking it moves no window's end. */
  lemma {:induction false} CheckReset(s: Store, e: Env, b: Budget, o: Budget)
    ensures CheckBudget(s, e, b).1.Some? ==> CheckBudget(s, e, b).1.value == ResetOf(s.m, e, b)
    ensures ResetOf(CheckBudget(s, e, b).0.m, e, o) == ResetOf(s.m, e, o)
  {
    hide StepStore, StepAnswer, ResetAt, KeyOf, WindowEnd;
    var s1 := StepStore(s, e.cap, e.cal, e.t, CheckOp(e, b));
    var kb, ko := KeyOf(e.zone, b.scope, b.id, b.kind), KeyOf(e.zone, o.scope, o.id, o.kind);
    KeysDiffer(e.zone, b.scope, b.id, b.kind, o.scope, o.id, o.kind);
    OpKeepsReset(s, e.cap, e.cal, e.t, CheckOp(e, b), kb, WindowOf(e.zone, b.kind));
    OpKeepsReset(s1, e.cap, e.cal, e.t, ResetOp(e, b), kb, WindowOf(e.zone, b.kind));
    OpKeepsReset(s, e.cap, e.cal, e.t, CheckOp(e, b), ko, WindowOf(e.zone, o.kind));
    OpKeepsReset(s1, e.cap, e.cal, e.t, ResetOp(e, b), ko, WindowOf(e.zone, o.kind));
  }

  /**
   The reset a scope's denial reports is the end of one of its two windows, and no window that is over its
   limit ends sooner: it is the earliest time at which retrying can help.
   */
  lemma {:induction false} DenialResetsSoonest(s: Store, e: Env, month: Budget, day: Budget)
    requires Sane(s, e)
    ensures var r := CheckScope(s, e, month, day).1;
            && (r.Some? ==> r.value == ResetOf(s.m, e, month) || r.value == ResetOf(s.m, e, day))
            && (!Within(s.m, e, month) ==> r.Some? && r.value <= ResetOf(s.m, e, month))
            && (!Within(s.m, e, day) ==> r.Some? && r.value <= ResetOf(s.m, e, day))
  {
    hide CheckBudget, Within, Quiet, Sane, ResetOf;
    var m := CheckBudget(s, e, month);
    CheckVerdict(s, e, month);
    CheckVerdict(m.0, e, day);
    QuietWithin(s.m, m.0.m, e, day);
    CheckReset(s, e, month, day);
    CheckReset(m.0, e, day, day);
  }

  /** Every budget of the subject, in every scope and window, is within its limit. */
  ghost predicate AllWithin(cfg: Config, m: Counters, e: Env, s: Subject, kp: KeyPolicy) {
    forall scope, kind :: Within(m, e, BudgetOf(cfg, s, kp, scope, kind))
  }

  predicate ScopeWithin(cfg: Config, m: Counters, e: Env, s: Subject, kp: KeyPolicy, scope: Scope) {
    Within(m, e, BudgetOf(cfg, s, kp, scope, Monthly)) && Within(m, e, BudgetOf(cfg, s, kp, scope, Daily))
  }

  function ScopeOf(code: Code): Option<Scope> {
    match code
    case TeamBudget => Some(TeamScope)
    case KeyBudget => Some(KeyScope)
    case UserBudget => Some(UserScope)
    case _ => None
  }

  lemma {:induction false} AllScopes(cfg: Config, m: Counters, e: Env, s: Subject, kp: KeyPolicy)
    requires forall scope :: ScopeWithin(cfg, m, e, s, kp, scope)
    ensures AllWithin(cfg, m, e, s, kp)
  {
    hide Within, BudgetOf;
    forall scope, kind
      ensures Within(m, e, BudgetOf(cfg, s, kp, scope, kind))
    {
      assert ScopeWithin(cfg, m, e, s, kp, scope);
      assert kind == Monthly || kind == Daily;
    }
  }

  /** One scope of one subject, checked after others: quiet, sane, and denied only for cause. */
  lemma {:induction false} SubjectScope(cfg: Config, first: Counters, s: Store, e: Env, sub: Subject,
                                        kp: KeyPolicy, scope: Scope, room: nat)
    requires Sane(s, e) && Quiet(first, s.m, e.t) && |Live(s.m, e.t)| <= room
    ensures var r := CheckScope(s, e, BudgetOf(cfg, sub, kp, scope, Monthly), BudgetOf(cfg, sub, kp, scope, Daily));
            && Sane(r.0, e) && Quiet(first, r.0.m, e.t) && |Live(r.0.m, e.t)| <= room + 2
            && (!ScopeWithin(cfg, first, e, sub, kp, scope) ==> r.1.Some?)
            && (r.1.Some? ==> !ScopeWithin(cfg, first, e, sub, kp, scope) || |Live(r.0.m, e.t)| >= e.cap)
  {
    hide CheckScope, Within, Quiet, Sane, Live, BudgetOf;
    var month, day := BudgetOf(cfg, sub, kp, scope, Monthly), BudgetOf(cfg, sub, kp, scope, Daily);
    ScopeVerdict(s, e, month, day);
    QuietTwice(first, s.m, CheckScope(s, e, month, day).0.m, e.t);
    QuietWithin(first, s.m, e, month);
    QuietWithin(first, s.m, e, day);
  }

  /**
   What a verdict means. Admission: the lease gate was open and every blocking budget, in all three
   scopes and both windows, had recorded no more than its limit. A budget denial: its scope really was
   over, or the store had no room to account for the request. With room for the six counters, the
   budgets alone decide. No check changes what anyone reads of any counter.
   */
  lemma {:induction false} VerdictMeans(cfg: Config, bud: Store, lim: L.Store, limCap: nat, e: Env, s: Subject,
                                        kp: KeyPolicy, estimate: int)
    requires Sane(bud, e)
    ensures var r := PreCheck(cfg, bud, lim, limCap, e, s, kp, estimate);
            && Quiet(bud.m, r.bud.m, e.t) && Sane(r.bud, e)
            && (r.verdict.Allowed? ==> !cfg.leaseBlocked(s.team, e.t) && AllWithin(cfg, bud.m, e, s, kp))
            && (r.verdict.Denied? && r.verdict.resetsAt.Some? ==>
                  && r.verdict.status == 402 && ScopeOf(r.verdict.code).Some?
                  && (!ScopeWithin(cfg, bud.m, e, s, kp, ScopeOf(r.verdict.code).value) || |Live(r.bud.m, e.t)| >= e.cap))
            && (|Live(bud.m, e.t)| + 6 < e.cap && AllWithin(cfg, bud.m, e, s, kp) ==>
                  !(r.verdict.Denied? && r.verdict.resetsAt.Some?))
  {
    hide CheckScope, PassGates, Within, Quiet, Sane, Live, BudgetOf, TeamGates, KeyGates;
    var n := |Live(bud.m, e.t)|;
    SelfQuiet(bud.m, e.t);
    SubjectScope(cfg, bud.m, bud, e, s, kp, TeamScope, n);
    var team := CheckScope(bud, e, BudgetOf(cfg, s, kp, TeamScope, Monthly), BudgetOf(cfg, s, kp, TeamScope, Daily));
    SubjectScope(cfg, bud.m, team.0, e, s, kp, KeyScope, n + 2);
    var key := CheckScope(team.0, e, BudgetOf(cfg, s, kp, KeyScope, Monthly), BudgetOf(cfg, s, kp, KeyScope, Daily));
    SubjectScope(cfg, bud.m, key.0, e, s, kp, UserScope, n + 4);
    if ScopeWithin(cfg, bud.m, e, s, kp, TeamScope) && ScopeWithin(cfg, bud.m, e, s, kp, KeyScope)
       && ScopeWithin(cfg, bud.m, e, s, kp, UserScope) {
      forall scope
        ensures ScopeWithin(cfg, bud.m, e, s, kp, scope)
      {
        assert scope.TeamScope? || scope.KeyScope? || scope.UserScope?;
      }
      AllScopes(cfg, bud.m, e, s, kp);
    }
  }

  lemma {:induction false} SelfQuiet(m: Counters, t: int)
    ensures Quiet(m, m, t)
  {
  }

  // ---- settlement -----------------------------------------------------------------------------------

  /** What settling one budget asks of the store: a debit, and for alerts a read-back. */
  function ChargeOps(zone: string, t: int, b: Budget, cost: int, readBack: bool): seq<Timed> {
    var k, w := KeyOf(zone, b.scope, b.id, b.kind), WindowOf(zone, b.kind);
    if b.limit <= 0 then []
    else [Timed(t, Debit(k, cost, w))] + if readBack then [Timed(t, Spent(k, w))] else []
  }

  /** Everything one scope's settlement asks of the store: the month, then the day. */
  function ScopeOps(cfg: Config, t: int, s: Subject, kp: KeyPolicy, cost: int, scope: Scope,
                    readBack: bool): seq<Timed> {
    ChargeOps(cfg.zone, t, BudgetOf(cfg, s, kp, scope, Monthly), cost, readBack) +
    ChargeOps(cfg.zone, t, BudgetOf(cfg, s, kp, scope, Daily), cost, false)
  }

  function SettleOps(cfg: Config, t: int, s: Subject, kp: KeyPolicy, cost: int): seq<Timed> {
    ScopeOps(cfg, t, s, kp, cost, TeamScope, true) +
    ScopeOps(cfg, t, s, kp, cost, KeyScope, cfg.keyAlerts) +
    ScopeOps(cfg, t, s, kp, cost, UserScope, false)
  }

  /** The limiter's half: tokens used count against the quota, and the estimate charged earlier is trued up. */
  function SettleLimiter(cfg: Config, lim: L.Store, cap: nat, t: int, s: Subject, kp: KeyPolicy, estimated: int,
                         actual: int): L.Store {
    var p := PolicyOf(cfg, s.team);
    var a := if p.Some? && p.value.tokensPerDay > 0
             then L.StepStore(lim, cap, t, L.DebitQuota("quota:" + s.team, actual, DAY)) else lim;
    var b := if p.Some? && p.value.tokensPerMinute > 0
             then L.StepStore(a, cap, t, L.AdjustRate("tpm:" + s.team, estimated - actual, p.value.tokensPerMinute)) else a;
    if kp.tokensPerMinute > 0
    then L.StepStore(b, cap, t, L.AdjustRate("tpm:key:" + s.keyID, estimated - actual, kp.tokensPerMinute)) else b
  }

  /** Distinct budgets have distinct counters, whatever the names contain. */
  lemma {:induction false} KeysDiffer(zone: string, s1: Scope, id1: string, k1: Kind, s2: Scope, id2: string, k2: Kind)
    ensures KeyOf(zone, s1, id1, k1) == KeyOf(zone, s2, id2, k2) <==> s1 == s2 && id1 == id2 && k1 == k2
  {
    CalendarTags(NoDuration, zone);
    var t1, t2 := Tag(WindowOf(zone, k1), NoDuration), Tag(WindowOf(zone, k2), NoDuration);
    if KeyOf(zone, s1, id1, k1) == KeyOf(zone, s2, id2, k2) {
      hide Key;
      KeyInjective(s1, id1, t1, s2, id2, t2);
    }
  }
}
