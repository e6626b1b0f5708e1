/**
 Whole histories of the governor: every counter is the money settled for exactly its own subject in its
 own window. Other subjects, scopes and windows never reach it, whatever their names look like.
 */
module Settlement {
  import opened BudgetStore
  import opened BudgetKeys
  import opened WindowSpend
  import opened Governance

  /** When a settlement debits the counter of a scope and window; others may act in between. */
  type Moments = (Scope, Kind) -> int

  /** A visit to the governor: one that only looks at the budget store, or one that settles a request. */
  datatype Visit =
    | Looked(t: int, ops: seq<Op>)
    | Settle(at: Moments, s: Subject, kp: KeyPolicy, cost: int)

  function LookOps(t: int, ops: seq<Op>): seq<Timed> {
    seq(|ops|, i requires 0 <= i < |ops| => Timed(t, ops[i]))
  }

  function VisitOps(cfg: Config, v: Visit): seq<Timed> {
    match v
    case Looked(t, ops) => LookOps(t, ops)
    case Settle(at, s, kp, cost) => SpreadOps(cfg, at, s, kp, cost)
  }

  function ScopeSpread(cfg: Config, at: Moments, s: Subject, kp: KeyPolicy, cost: int, scope: Scope,
                       readBack: bool): seq<Timed> {
    ChargeOps(cfg.zone, at(scope, Monthly), BudgetOf(cfg, s, kp, scope, Monthly), cost, readBack)
    + ChargeOps(cfg.zone, at(scope, Daily), BudgetOf(cfg, s, kp, scope, Daily), cost, false)
  }

  /** The operations of a settlement, each scope and window at its own time. */
  function SpreadOps(cfg: Config, at: Moments, s: Subject, kp: KeyPolicy, cost: int): seq<Timed> {
    ScopeSpread(cfg, at, s, kp, cost, TeamScope, true) + ScopeSpread(cfg, at, s, kp, cost, KeyScope, cfg.keyAlerts)
    + ScopeSpread(cfg, at, s, kp, cost, UserScope, false)
  }

  /** They are the governor's own settlement, spread over time. */
  lemma {:induction false} SpreadIsSettle(cfg: Config, t: int, s: Subject, kp: KeyPolicy, cost: int)
    ensures SpreadOps(cfg, (_, _) => t, s, kp, cost) == SettleOps(cfg, t, s, kp, cost)
  {
    hide ChargeOps, BudgetOf;
  }

  function AllOps(cfg: Config, h: seq<Visit>): seq<Timed> {
    if h == [] then [] else AllOps(cfg, h[..|h| - 1]) + VisitOps(cfg, h[|h| - 1])
  }

  /** Money settled for one subject of one scope in the window that is open at `t`. */
  ghost function SubjectSum(cfg: Config, cal: Calendar, h: seq<Visit>, scope: Scope, id: string, kind: Kind,
                            t: int): int {
    if h == [] then 0
    else
      var v := h[|h| - 1];
      SubjectSum(cfg, cal, h[..|h| - 1], scope, id, kind, t) +
      if v.Settle? && IdOf(v.s, scope) == id && BudgetOf(cfg, v.s, v.kp, scope, kind).limit > 0
         && SameWindow(cal, cfg.zone, kind, v.at(scope, kind), t) then v.cost else 0
  }

  predicate SameWindow(cal: Calendar, zone: string, kind: Kind, t: int, t': int) {
    WindowEnd(cal, t, WindowOf(zone, kind)) == WindowEnd(cal, t', WindowOf(zone, kind))
  }

  /** Debits of a key in the window open at `t`, in a list of operations. */
  ghost function WindowDebits(cal: Calendar, ops: seq<Timed>, k: string, w: Window, t: int): int {
    if ops == [] then 0
    else
      var o := ops[|ops| - 1];
      WindowDebits(cal, ops[..|ops| - 1], k, w, t) +
      if Debits(o.op, k) && WindowEnd(cal, o.t, w) == WindowEnd(cal, t, w) then o.op.amount else 0
  }

  lemma {:induction false} DebitsConcat(cal: Calendar, a: seq<Timed>, b: seq<Timed>, k: string, w: Window, t: int)
    ensures WindowDebits(cal, a + b, k, w, t) == WindowDebits(cal, a, k, w, t) + WindowDebits(cal, b, k, w, t)
    decreases |b|
  {
    if b == [] {
      assert a + b == a;
    } else {
      assert (a + b)[..|a + b| - 1] == a + b[..|b| - 1];
      DebitsConcat(cal, a, b[..|b| - 1], k, w, t);
    }
  }

  lemma {:induction false} NoDebits(cal: Calendar, ops: seq<Timed>, k: string, w: Window, t: int)
    requires forall i :: 0 <= i < |ops| ==> !ops[i].op.Debit?
    ensures WindowDebits(cal, ops, k, w, t) == 0
  {
    if ops != [] {
      NoDebits(cal, ops[..|ops| - 1], k, w, t);
    }
  }

  /** One budget's charge reaches its own counter and no other. */
  lemma {:induction false} ChargeReaches(cal: Calendar, zone: string, t0: int, b: Budget, cost: int, readBack: bool,
                                         scope: Scope, id: string, kind: Kind, t: int)
    ensures WindowDebits(cal, ChargeOps(zone, t0, b, cost, readBack), KeyOf(zone, scope, id, kind), WindowOf(zone, kind), t)
            == if b.limit > 0 && b.scope == scope && b.id == id && b.kind == kind && SameWindow(cal, zone, kind, t0, t)
               then cost else 0
  {
    hide KeyOf, WindowEnd;
    KeysDiffer(zone, b.scope, b.id, b.kind, scope, id, kind);
    var k, w := KeyOf(zone, b.scope, b.id, b.kind), WindowOf(zone, b.kind);
    var debit := [Timed(t0, Debit(k, cost, w))];
    var read := [Timed(t0, Spent(k, w))];
    var target, tw := KeyOf(zone, scope, id, kind), WindowOf(zone, kind);
    if b.limit > 0 {
      assert debit[..0] == [];
      assert WindowDebits(cal, debit[..0], target, tw, t) == 0;
      if readBack {
        DebitsConcat(cal, debit, read, target, tw, t);
        NoDebits(cal, read, target, tw, t);
      } else {
        assert debit + [] == debit;
      }
    }
  }

  lemma {:induction false} BudgetShape(cfg: Config, s: Subject, kp: KeyPolicy, scope: Scope, kind: Kind)
    ensures var b := BudgetOf(cfg, s, kp, scope, kind); b.scope == scope && b.kind == kind && b.id == IdOf(s, scope)
  {
  }

  lemma {:induction false} ScopeReaches(cal: Calendar, cfg: Config, at: Moments, s: Subject, kp: KeyPolicy,
                                        cost: int, charged: Scope, readBack: bool,
                                        scope: Scope, id: string, kind: Kind, t: int)
    ensures WindowDebits(cal, ScopeSpread(cfg, at, s, kp, cost, charged, readBack), KeyOf(cfg.zone, scope, id, kind),
                         WindowOf(cfg.zone, kind), t)
            == if charged == scope && IdOf(s, scope) == id && BudgetOf(cfg, s, kp, scope, kind).limit > 0
                  && SameWindow(cal, cfg.zone, kind, at(scope, kind), t) then cost else 0
  {
    hide KeyOf, WindowEnd, ChargeOps, BudgetOf, IdOf, WindowDebits, SameWindow;
    var m, d := BudgetOf(cfg, s, kp, charged, Monthly), BudgetOf(cfg, s, kp, charged, Daily);
    BudgetShape(cfg, s, kp, charged, Monthly);
    BudgetShape(cfg, s, kp, charged, Daily);
    ChargeReaches(cal, cfg.zone, at(charged, Monthly), m, cost, readBack, scope, id, kind, t);
    ChargeReaches(cal, cfg.zone, at(charged, Daily), d, cost, false, scope, id, kind, t);
    DebitsConcat(cal, ChargeOps(cfg.zone, at(charged, Monthly), m, cost, readBack),
      ChargeOps(cfg.zone, at(charged, Daily), d, cost, false),
                 KeyOf(cfg.zone, scope, id, kind), WindowOf(cfg.zone, kind), t);
    assert kind == Monthly || kind == Daily;
  }

  /** A settlement reaches each of its subject's budgeted counters once, with the full cost, and nobody else's. */
  lemma {:induction false} SettleReaches(cal: Calendar, cfg: Config, at: Moments, s: Subject, kp: KeyPolicy, cost: int,
                                         scope: Scope, id: string, kind: Kind, t: int)
    ensures WindowDebits(cal, SpreadOps(cfg, at, s, kp, cost), KeyOf(cfg.zone, scope, id, kind), WindowOf(cfg.zone, kind), t)
            == if IdOf(s, scope) == id && BudgetOf(cfg, s, kp, scope, kind).limit > 0
                  && SameWindow(cal, cfg.zone, kind, at(scope, kind), t) then cost else 0
  {
    hide KeyOf, WindowEnd, ScopeSpread, BudgetOf, IdOf, WindowDebits, SameWindow;
    var k, w := KeyOf(cfg.zone, scope, id, kind), WindowOf(cfg.zone, kind);
    var a := ScopeSpread(cfg, at, s, kp, cost, TeamScope, true);
    var b := ScopeSpread(cfg, at, s, kp, cost, KeyScope, cfg.keyAlerts);
    var c := ScopeSpread(cfg, at, s, kp, cost, UserScope, false);
    ScopeReaches(cal, cfg, at, s, kp, cost, TeamScope, true, scope, id, kind, t);
    ScopeReaches(cal, cfg, at, s, kp, cost, KeyScope, cfg.keyAlerts, scope, id, kind, t);
    ScopeReaches(cal, cfg, at, s, kp, cost, UserScope, false, scope, id, kind, t);
    DebitsConcat(cal, a + b, c, k, w, t);
    DebitsConcat(cal, a, b, k, w, t);
    assert scope.TeamScope? || scope.KeyScope? || scope.UserScope?;
  }

  /** Looking at counters charges nothing. */
  predicate OnlyLooks(h: seq<Visit>) {
    forall i :: 0 <= i < |h| && h[i].Looked? ==> forall j :: 0 <= j < |h[i].ops| ==> !h[i].ops[j].Debit?
  }

  lemma {:induction false} HistorySum(cal: Calendar, cfg: Config, h: seq<Visit>, scope: Scope, id: string,
                                      kind: Kind, t: int)
    requires OnlyLooks(h)
    ensures WindowDebits(cal, AllOps(cfg, h), KeyOf(cfg.zone, scope, id, kind), WindowOf(cfg.zone, kind), t)
            == SubjectSum(cfg, cal, h, scope, id, kind, t)
  {
    hide KeyOf, WindowEnd, SpreadOps, BudgetOf, IdOf, WindowDebits, SameWindow;
    var k, w := KeyOf(cfg.zone, scope, id, kind), WindowOf(cfg.zone, kind);
    if h == [] {
      NoDebits(cal, [], k, w, t);
    } else {
      var n := |h| - 1;
      var v := h[n];
      HistorySum(cal, cfg, h[..n], scope, id, kind, t);
      DebitsConcat(cal, AllOps(cfg, h[..n]), VisitOps(cfg, v), k, w, t);
      match v
      case Looked(t0, ops) =>
        NoDebits(cal, LookOps(t0, ops), k, w, t);
      case Settle(at, s, kp, cost) =>
        SettleReaches(cal, cfg, at, s, kp, cost, scope, id, kind, t);
    }
  }

  // ---- the store ------------------------------------------------------------------------------------

  /** The store never had to refuse a debit. */
  ghost predicate NeverFull(cap: nat, cal: Calendar, ops: seq<Timed>) {
    forall i :: 0 <= i < |ops| && ops[i].op.Debit? ==>
      !Refused(RunStore(Store(map[], 0, 0), cap, cal, ops[..i]), cap, cal, ops[i].t, ops[i].op)
  }

  lemma {:induction false} SettledIsDebited(cap: nat, cal: Calendar, ops: seq<Timed>, k: string, w: Window, t: int)
    requires NeverFull(cap, cal, ops)
    ensures Settled(Store(map[], 0, 0), cap, cal, ops, k, w, t) == WindowDebits(cal, ops, k, w, t)
  {
    hide Refused, RunStore, WindowEnd;
    if ops != [] {
      var n := |ops| - 1;
      assert forall i :: 0 <= i < n ==> ops[..n][..i] == ops[..i];
      SettledIsDebited(cap, cal, ops[..n], k, w, t);
      assert Debits(ops[n].op, k) ==> ops[n].op.Debit?;
    }
  }

  // ---- interleavings --------------------------------------------------------------------------------

  /** What one operation adds. */
  ghost function DebitOf(cal: Calendar, o: Timed, k: string, w: Window, t: int): int {
    if Debits(o.op, k) && WindowEnd(cal, o.t, w) == WindowEnd(cal, t, w) then o.op.amount else 0
  }

  lemma {:induction false} DebitsAround(cal: Calendar, a: seq<Timed>, o: Timed, b: seq<Timed>, k: string,
                                        w: Window, t: int)
    ensures WindowDebits(cal, a + [o] + b, k, w, t) == WindowDebits(cal, a + b, k, w, t) + DebitOf(cal, o, k, w, t)
  {
    hide WindowEnd;
    DebitsConcat(cal, a + [o], b, k, w, t);
    DebitsConcat(cal, a, b, k, w, t);
    assert (a + [o])[..|a|] == a;
  }

  /** The order of the operations does not matter for what was debited. */
  lemma {:induction false} DebitsOfReordered(cal: Calendar, a: seq<Timed>, b: seq<Timed>, k: string, w: Window, t: int)
    requires multiset(a) == multiset(b)
    ensures WindowDebits(cal, a, k, w, t) == WindowDebits(cal, b, k, w, t)
  {
    hide WindowDebits, DebitOf;
    if a == [] {
      assert |multiset(b)| == 0;
      assert a == b;
    } else {
      var n := |a| - 1;
      var o := a[n];
      assert o in multiset(b);
      var j :| 0 <= j < |b| && b[j] == o;
      WithoutOne(a, n);
      WithoutOne(b, j);
      assert a[..n] + a[n + 1..] == a[..n];
      CancelOne(multiset(a[..n]), multiset(b[..j] + b[j + 1..]), o);
      DebitsOfReordered(cal, a[..n], b[..j] + b[j + 1..], k, w, t);
      DebitsAround(cal, a[..n], o, a[n + 1..], k, w, t);
      DebitsAround(cal, b[..j], o, b[j + 1..], k, w, t);
    }
  }

  lemma {:induction false} WithoutOne(s: seq<Timed>, j: nat)
    requires j < |s|
    ensures s == s[..j] + [s[j]] + s[j + 1..] && multiset(s) == multiset(s[..j] + s[j + 1..]) + multiset{s[j]}
  {
    assert s == s[..j] + [s[j]] + s[j + 1..];
  }

  lemma {:induction false} CancelOne(a: multiset<Timed>, b: multiset<Timed>, o: Timed)
    requires a + multiset{o} == b + multiset{o}
    ensures a == b
  {
    assert a == a + multiset{o} - multiset{o} && b == b + multiset{o} - multiset{o};
  }

  /**
   Settlement conservation without cross-talk. Over any history of visits, their single operations interleaved
   in any way under a forward clock, with fixed policies and a store that never ran full, the counter of a
   scope, subject and window reads exactly the sum of the costs settled for that very subject, while it was
   budgeted there, in the window now open.
   */
  lemma {:induction false} CounterIsSubjectSum(cap: nat, cal: Calendar, cfg: Config, h: seq<Visit>, ops: seq<Timed>,
                                               scope: Scope, id: string, kind: Kind, t: int)
    requires OnlyLooks(h) && multiset(ops) == multiset(AllOps(cfg, h))
    requires var k, w := KeyOf(cfg.zone, scope, id, kind), WindowOf(cfg.zone, kind);
             && CalendarLike(cal, w) && Orderly(ops, k, w) && NeverFull(cap, cal, ops)
             && (ops != [] ==> ops[|ops| - 1].t <= t)
    ensures View(RunStore(Store(map[], 0, 0), cap, cal, ops).m, KeyOf(cfg.zone, scope, id, kind), t)
            == SubjectSum(cfg, cal, h, scope, id, kind, t)
  {
    hide AllOps, KeyOf, RunStore, View, CalendarLike, Orderly, NeverFull, SubjectSum, OnlyLooks;
    var k, w := KeyOf(cfg.zone, scope, id, kind), WindowOf(cfg.zone, kind);
    CounterIsWindowSum(cap, cal, ops, k, w, t);
    SettledIsDebited(cap, cal, ops, k, w, t);
    DebitsOfReordered(cal, ops, AllOps(cfg, h), k, w, t);
    HistorySum(cal, cfg, h, scope, id, kind, t);
  }

  /** For users the subject is one (team, user) pair: team names carry no slash. */
  lemma {:induction false} UserSubjectsDiffer(s1: Subject, s2: Subject)
    requires Free(s1.team, '/') && Free(s2.team, '/')
    ensures IdOf(s1, UserScope) == IdOf(s2, UserScope) <==> s1.team == s2.team && s1.user == s2.user
  {
    if IdOf(s1, UserScope) == IdOf(s2, UserScope) {
      UserIdInjective(s1.team, s1.user, s2.team, s2.user);
    }
  }
}
