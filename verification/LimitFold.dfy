/**
 Most-restrictive-wins: how the budget and rate rules of many policies fold into one set of limits per
 team and per user. The meaning of a fold is stated over the set of contributing rules, so it cannot
 depend on the order policies arrive in.
 */
module LimitFold {
  import opened Periods
  import opened Options

  datatype Budget = Budget(unlimited: bool, limit: int, hard: bool, period: Period)

  datatype Rate = Rate(rpm: int, tpm: int)

  /** A strict tier names the budget rule whose use makes it switch models. */
  datatype Rule = Rule(name: string, rate: Option<Rate>, budget: Option<Budget>, strictTierRef: Option<string>)

  datatype Policy = Policy(team: string, user: string, rules: seq<Rule>)

  /** What validation guarantees of a policy before it is folded. */
  predicate Validated(p: Policy) {
    forall i :: 0 <= i < |p.rules| ==>
      && (p.rules[i].budget.Some? && !p.rules[i].budget.value.unlimited ==> p.rules[i].budget.value.limit > 0)
      && (p.rules[i].rate.Some? ==> 0 <= p.rules[i].rate.value.rpm && 0 <= p.rules[i].rate.value.tpm)
  }

  /** A limit and whether exceeding it blocks; zero is "no limit". */
  datatype Cap = Cap(limit: int, hard: bool)

  const NO_CAP: Cap := Cap(0, false)

  predicate Proper(c: Cap) {
    0 <= c.limit && (c.limit == 0 ==> !c.hard)
  }

  // ---- narrowing one window -------------------------------------------------------------------------

  /** One view narrowed by another: a smaller limit replaces, an equal one may only add hardness. */
  function Narrow(u: Cap, o: Cap): Cap {
    if o.limit == 0 then u
    else if u.limit == 0 || o.limit < u.limit then o
    else if o.limit == u.limit && o.hard then u.(hard := true)
    else u
  }

  /** The declarative meaning: the least limit of the set, hard exactly when some rule at that limit is. */
  ghost predicate IsMeet(caps: set<Cap>, r: Cap) {
    if caps == {} then r == NO_CAP
    else
      && (exists c :: c in caps && c.limit == r.limit)
      && (forall c :: c in caps ==> r.limit <= c.limit)
      && (r.hard <==> exists c :: c in caps && c.limit == r.limit && c.hard)
  }

  predicate Positive(caps: set<Cap>) {
    forall c :: c in caps ==> 0 < c.limit
  }

  lemma {:induction false} MeetIsUnique(caps: set<Cap>, r: Cap, q: Cap)
    requires IsMeet(caps, r) && IsMeet(caps, q)
    ensures r == q
  {
  }

  lemma {:induction false} MeetIsProper(caps: set<Cap>, r: Cap)
    requires IsMeet(caps, r) && Positive(caps)
    ensures Proper(r) && (r.limit == 0 <==> caps == {})
  {
  }

  /** Narrowing is the meet of unions. */
  lemma {:induction false} NarrowIsUnion(a: set<Cap>, r: Cap, b: set<Cap>, q: Cap)
    requires IsMeet(a, r) && IsMeet(b, q) && Positive(a) && Positive(b)
    ensures IsMeet(a + b, Narrow(r, q)) && Positive(a + b)
  {
    MeetIsProper(a, r);
    MeetIsProper(b, q);
    if a == {} {
      assert a + b == b;
    } else if b == {} {
      assert a + b == a;
    } else {
      var n := Narrow(r, q);
      var x :| x in a && x.limit == r.limit;
      var y :| y in b && y.limit == q.limit;
      assert x in a + b && y in a + b;
      if r.hard {
        var h :| h in a && h.limit == r.limit && h.hard;
        assert h in a + b;
      }
      if q.hard {
        var h :| h in b && h.limit == q.limit && h.hard;
        assert h in a + b;
      }
    }
  }

  /** The set a single view stands for. */
  function AsSet(c: Cap): set<Cap> {
    if c.limit == 0 then {} else {c}
  }

  lemma {:induction false} ViewIsMeet(c: Cap)
    requires Proper(c)
    ensures IsMeet(AsSet(c), c) && Positive(AsSet(c))
  {
  }

  /** Narrowing is commutative, associative and idempotent, and the empty view is its identity. */
  lemma {:induction false} NarrowLaws(a: Cap, b: Cap, c: Cap)
    requires Proper(a) && Proper(b) && Proper(c)
    ensures Narrow(a, b) == Narrow(b, a)
    ensures Narrow(Narrow(a, b), c) == Narrow(a, Narrow(b, c))
    ensures Narrow(a, a) == a && Narrow(a, NO_CAP) == a && Narrow(NO_CAP, a) == a
    ensures Proper(Narrow(a, b))
  {
    hide IsMeet, Narrow;
    ViewIsMeet(a);
    ViewIsMeet(b);
    ViewIsMeet(c);
    ViewIsMeet(NO_CAP);
    var sa, sb, sc := AsSet(a), AsSet(b), AsSet(c);
    NarrowIsUnion(sa, a, sb, b);
    NarrowIsUnion(sb, b, sa, a);
    assert sa + sb == sb + sa;
    MeetIsUnique(sa + sb, Narrow(a, b), Narrow(b, a));
    NarrowIsUnion(sa + sb, Narrow(a, b), sc, c);
    NarrowIsUnion(sb, b, sc, c);
    NarrowIsUnion(sa, a, sb + sc, Narrow(b, c));
    assert (sa + sb) + sc == sa + (sb + sc);
    MeetIsUnique(sa + (sb + sc), Narrow(Narrow(a, b), c), Narrow(a, Narrow(b, c)));
    NarrowIsUnion(sa, a, sa, a);
    assert sa + sa == sa;
    MeetIsUnique(sa, Narrow(a, a), a);
    NarrowIsUnion(sa, a, {}, NO_CAP);
    assert sa + {} == sa;
    MeetIsUnique(sa, Narrow(a, NO_CAP), a);
    NarrowIsUnion({}, NO_CAP, sa, a);
    assert {} + sa == sa;
    MeetIsUnique(sa, Narrow(NO_CAP, a), a);
    MeetIsProper(sa + sb, Narrow(a, b));
  }

  // ---- which rules contribute -----------------------------------------------------------------------

  function FirstNamed(rules: seq<Rule>, name: string): Option<Rule> {
    if rules == [] then None
    else if rules[0].name == name then Some(rules[0])
    else FirstNamed(rules[1..], name)
  }

  /** A finite, soft team budget that a strict tier of the same document refers to is a switching threshold only. */
  predicate RoutingOnly(p: Policy, name: string) {
    && name != "" && p.team != "" && p.user == ""
    && var r := FirstNamed(p.rules, name);
       && r.Some? && r.value.budget.Some?
       && var b := r.value.budget.value;
          && !b.hard && !b.unlimited && b.limit > 0
          && exists i :: 0 <= i < |p.rules| && p.rules[i].strictTierRef == Some(name)
  }

  /** The rule caps admission in this window. */
  predicate Caps(p: Policy, r: Rule, w: Period) {
    && r.budget.Some? && !r.budget.value.unlimited && r.budget.value.period == w
    && !RoutingOnly(p, r.name)
  }

  function CapOf(r: Rule): Cap
    requires r.budget.Some?
  {
    Cap(r.budget.value.limit, r.budget.value.hard)
  }

  /** All caps that one policy's first `n` rules contribute to a window. */
  ghost function PolicyCaps(p: Policy, n: nat, w: Period): set<Cap>
    requires n <= |p.rules|
  {
    set i | 0 <= i < n && Caps(p, p.rules[i], w) :: CapOf(p.rules[i])
  }

  /** All caps contributed to a window by the selected policies, in whatever order they stand. */
  ghost function AllCaps(policies: seq<Policy>, chosen: Policy -> bool, w: Period): set<Cap> {
    set p, i | p in policies && chosen(p) && 0 <= i < |p.rules| && Caps(p, p.rules[i], w) :: CapOf(p.rules[i])
  }

  lemma {:induction false} AllCapsStep(policies: seq<Policy>, n: nat, chosen: Policy -> bool, w: Period)
    requires n < |policies|
    ensures AllCaps(policies[..n + 1], chosen, w)
            == AllCaps(policies[..n], chosen, w)
               + if chosen(policies[n]) then PolicyCaps(policies[n], |policies[n].rules|, w) else {}
  {
    hide RoutingOnly;
    var p := policies[n];
    assert policies[..n + 1] == policies[..n] + [p];
    assert forall q :: q in policies[..n + 1] <==> q in policies[..n] || q == p;
    var l, r := AllCaps(policies[..n + 1], chosen, w), AllCaps(policies[..n], chosen, w);
    if chosen(p) {
      forall c | c in PolicyCaps(p, |p.rules|, w)
        ensures c in l
      {
        var i :| 0 <= i < |p.rules| && Caps(p, p.rules[i], w) && CapOf(p.rules[i]) == c;
        assert p in policies[..n + 1];
      }
    }
  }

  // ---- the team fold --------------------------------------------------------------------------------

  datatype TeamLimits = TeamLimits(rpm: int, tpm: int, month: Cap, day: Cap, routingMonth: int, routingDay: int)

  const NO_LIMITS: TeamLimits := TeamLimits(0, 0, NO_CAP, NO_CAP, 0, 0)

  function MinNonZero(a: int, b: int): int {
    if a == 0 then b else if b == 0 then a else if b < a then b else a
  }

  /** The comparison ladder of one window, as it is applied to a rule's own limit. */
  function Ladder(c: Cap, b: Budget): Cap {
    if c.limit == 0 || b.limit < c.limit then Cap(b.limit, b.hard)
    else if b.limit == c.limit && b.hard then c.(hard := true)
    else c
  }

  function AddRate(tl: TeamLimits, r: Rule): TeamLimits {
    if r.rate.None? then tl
    else tl.(rpm := MinNonZero(tl.rpm, r.rate.value.rpm), tpm := MinNonZero(tl.tpm, r.rate.value.tpm))
  }

  function AddBudget(tl: TeamLimits, p: Policy, r: Rule): TeamLimits {
    if r.budget.None? then tl
    else
      var b := r.budget.value;
      if RoutingOnly(p, r.name) then
        if b.period.CalendarDay? then tl.(routingDay := MinNonZero(tl.routingDay, b.limit))
        else tl.(routingMonth := MinNonZero(tl.routingMonth, b.limit))
      else if b.unlimited then tl
      else if b.period.CalendarDay? then tl.(day := Ladder(tl.day, b))
      else tl.(month := Ladder(tl.month, b))
  }

  function FoldRules(tl: TeamLimits, p: Policy, n: nat): TeamLimits
    requires n <= |p.rules|
  {
    if n == 0 then tl else AddBudget(AddRate(FoldRules(tl, p, n - 1), p.rules[n - 1]), p, p.rules[n - 1])
  }

  predicate Contributes(p: Policy, n: nat)
    requires n <= |p.rules|
  {
    exists i :: 0 <= i < n && (p.rules[i].rate.Some? || p.rules[i].budget.Some?)
  }

  /** Only pure team subjects count; one person's cap must not bind the whole team. */
  predicate ForTeam(p: Policy, team: string) {
    p.team == team && p.team != "" && p.user == ""
  }

  function ChooseTeam(team: string): Policy -> bool {
    (p: Policy) => ForTeam(p, team)
  }

  /** The limits one team gets from the first `n` policies, and whether any rule contributed. */
  function TeamFold(policies: seq<Policy>, team: string, n: nat): (TeamLimits, bool)
    requires n <= |policies|
  {
    if n == 0 then (NO_LIMITS, false)
    else
      var before, p := TeamFold(policies, team, n - 1), policies[n - 1];
      if ForTeam(p, team) then (FoldRules(before.0, p, |p.rules|), before.1 || Contributes(p, |p.rules|)) else before
  }

  function Window(tl: TeamLimits, w: Period): Cap {
    if w.CalendarDay? then tl.day else tl.month
  }

  lemma {:induction false} LadderNarrows(c: Cap, b: Budget)
    requires 0 < b.limit
    ensures Ladder(c, b) == Narrow(c, Cap(b.limit, b.hard))
  {
  }

  lemma {:induction false} RulesMeet(tl: TeamLimits, p: Policy, n: nat, w: Period, caps: set<Cap>)
    requires n <= |p.rules| && Validated(p) && Positive(caps) && IsMeet(caps, Window(tl, w))
    ensures IsMeet(caps + PolicyCaps(p, n, w), Window(FoldRules(tl, p, n), w)) && Positive(caps + PolicyCaps(p, n, w))
  {
    hide IsMeet, RoutingOnly, Narrow;
    if n == 0 {
      assert PolicyCaps(p, 0, w) == {};
      assert caps + {} == caps;
    } else {
      var r, before := p.rules[n - 1], caps + PolicyCaps(p, n - 1, w);
      RulesMeet(tl, p, n - 1, w, caps);
      if Caps(p, r, w) {
        LadderNarrows(Window(FoldRules(tl, p, n - 1), w), r.budget.value);
        NarrowIsUnion(before, Window(FoldRules(tl, p, n - 1), w), {CapOf(r)}, CapOf(r));
        assert before + {CapOf(r)} == caps + PolicyCaps(p, n, w);
      } else {
        assert before == caps + PolicyCaps(p, n, w);
      }
    }
  }

  lemma {:induction false} TeamMeets(policies: seq<Policy>, team: string, n: nat, w: Period)
    requires n <= |policies| && forall i :: 0 <= i < |policies| ==> Validated(policies[i])
    ensures IsMeet(AllCaps(policies[..n], ChooseTeam(team), w), Window(TeamFold(policies, team, n).0, w))
    ensures Positive(AllCaps(policies[..n], ChooseTeam(team), w))
  {
    hide IsMeet, RoutingOnly, FoldRules;
    if n == 0 {
      assert AllCaps(policies[..0], ChooseTeam(team), w) == {};
      EmptyMeet();
    } else {
      TeamMeets(policies, team, n - 1, w);
      AllCapsStep(policies, n - 1, ChooseTeam(team), w);
      var p, caps := policies[n - 1], AllCaps(policies[..n - 1], ChooseTeam(team), w);
      if ForTeam(p, team) {
        RulesMeet(TeamFold(policies, team, n - 1).0, p, |p.rules|, w, caps);
      } else {
        assert caps + {} == caps;
      }
    }
  }

  lemma {:induction false} EmptyMeet()
    ensures IsMeet({}, NO_CAP)
  {
  }

  /**
   The team fold means: in each window the limit is the least over all contributing finite rules of the
   team's policies, hard exactly when some rule at that least limit is hard. It is a statement about the
   set of rules, so every order of the same policies gives the same limits.
   */
  lemma {:induction false} TeamFoldMeansLeast(policies: seq<Policy>, team: string, w: Period)
    requires forall i :: 0 <= i < |policies| ==> Validated(policies[i])
    ensures IsMeet(AllCaps(policies, ChooseTeam(team), w), Window(TeamFold(policies, team, |policies|).0, w))
  {
    hide IsMeet, TeamFold, AllCaps;
    TeamMeets(policies, team, |policies|, w);
    assert policies[..|policies|] == policies;
  }

  lemma {:induction false} TeamFoldIsOrderFree(one: seq<Policy>, two: seq<Policy>, team: string, w: Period)
    requires forall i :: 0 <= i < |one| ==> Validated(one[i])
    requires forall p :: p in one <==> p in two
    ensures Window(TeamFold(one, team, |one|).0, w) == Window(TeamFold(two, team, |two|).0, w)
  {
    hide IsMeet, TeamFold, Validated, Caps;
    forall i | 0 <= i < |two|
      ensures Validated(two[i])
    {
      assert two[i] in one;
      var j :| 0 <= j < |one| && one[j] == two[i];
    }
    TeamFoldMeansLeast(one, team, w);
    TeamFoldMeansLeast(two, team, w);
    assert AllCaps(one, ChooseTeam(team), w) == AllCaps(two, ChooseTeam(team), w);
    MeetIsUnique(AllCaps(one, ChooseTeam(team), w), Window(TeamFold(one, team, |one|).0, w),
      Window(TeamFold(two, team, |two|).0, w));
  }

  /** A policy with one monthly budget. */
  function OneBudget(team: string, limit: int, hard: bool): Policy {
    Policy(team, "", [Rule("budget", None, Some(Budget(false, limit, hard, CalendarMonth)), None)])
  }

  /**
   A larger hard cap beside a smaller soft one is not kept, in either order: the team ends with the smaller
   limit, and no limit blocks it.
   */
  lemma {:induction false} LargerHardCapIsLost(team: string, small: int, large: int)
    requires team != "" && 0 < small < large
    ensures var hard, soft := OneBudget(team, large, true), OneBudget(team, small, false);
            && Validated(hard) && Validated(soft)
            && TeamFold([hard], team, 1).0.month == Cap(large, true)
            && TeamFold([hard, soft], team, 2).0.month == Cap(small, false)
            && TeamFold([soft, hard], team, 2).0.month == Cap(small, false)
  {
    var hard, soft := OneBudget(team, large, true), OneBudget(team, small, false);
    OneBudgetFolds([hard], team, 0, large, true);
    OneBudgetFolds([hard, soft], team, 0, large, true);
    OneBudgetFolds([hard, soft], team, 1, small, false);
    OneBudgetFolds([soft, hard], team, 0, small, false);
    OneBudgetFolds([soft, hard], team, 1, large, true);
  }

  /** One more such policy applies the ladder once. */
  lemma {:induction false} OneBudgetFolds(policies: seq<Policy>, team: string, n: nat, limit: int, hard: bool)
    requires n < |policies| && team != "" && policies[n] == OneBudget(team, limit, hard)
    ensures TeamFold(policies, team, n + 1).0.month
            == Ladder(TeamFold(policies, team, n).0.month, Budget(false, limit, hard, CalendarMonth))
  {
    var p, before := policies[n], TeamFold(policies, team, n).0;
    assert p.rules[0].strictTierRef == None;
    assert !RoutingOnly(p, "budget");
    assert FoldRules(before, p, 0) == before;
    assert FoldRules(before, p, 1) == AddBudget(AddRate(FoldRules(before, p, 0), p.rules[0]), p, p.rules[0]);
  }

  // ---- the other dimensions -------------------------------------------------------------------------

  datatype Dim = Rpm | Tpm | RoutingMonth | RoutingDay

  function Field(tl: TeamLimits, d: Dim): int {
    match d
    case Rpm => tl.rpm
    case Tpm => tl.tpm
    case RoutingMonth => tl.routingMonth
    case RoutingDay => tl.routingDay
  }

  /** What a rule asks for in a dimension; zero is nothing. */
  function Asks(p: Policy, r: Rule, d: Dim): int {
    match d
    case Rpm => if r.rate.Some? then r.rate.value.rpm else 0
    case Tpm => if r.rate.Some? then r.rate.value.tpm else 0
    case RoutingMonth =>
      if r.budget.Some? && RoutingOnly(p, r.name) && r.budget.value.period.CalendarMonth?
      then r.budget.value.limit else 0
    case RoutingDay =>
      if r.budget.Some? && RoutingOnly(p, r.name) && r.budget.value.period.CalendarDay?
      then r.budget.value.limit else 0
  }

  /** Zero when nothing is asked; otherwise the least of what is asked. */
  ghost predicate IsLeastAsked(policies: seq<Policy>, team: string, n: nat, d: Dim, v: int)
    requires n <= |policies|
  {
    && (v != 0 ==> exists i, j ::
          0 <= i < n && ForTeam(policies[i], team) && 0 <= j < |policies[i].rules|
          && Asks(policies[i], policies[i].rules[j], d) == v)
    && (forall i, j ::
          0 <= i < n && ForTeam(policies[i], team) && 0 <= j < |policies[i].rules|
          && Asks(policies[i], policies[i].rules[j], d) != 0 ==>
          v != 0 && v <= Asks(policies[i], policies[i].rules[j], d))
  }

  lemma {:induction false} AddRuleField(tl: TeamLimits, p: Policy, r: Rule, d: Dim)
    ensures Field(AddBudget(AddRate(tl, r), p, r), d) == MinNonZero(Field(tl, d), Asks(p, r, d))
  {
    hide RoutingOnly;
  }

  lemma {:induction false} RulesField(tl: TeamLimits, p: Policy, n: nat, d: Dim)
    requires n <= |p.rules|
    ensures var v := Field(FoldRules(tl, p, n), d);
            && (v == Field(tl, d) || exists j :: 0 <= j < n && Asks(p, p.rules[j], d) == v)
            && (Field(tl, d) != 0 ==> v != 0 && v <= Field(tl, d))
            && (forall j :: 0 <= j < n && Asks(p, p.rules[j], d) != 0 ==> v != 0 && v <= Asks(p, p.rules[j], d))
  {
    hide Asks, AddBudget, AddRate;
    if n > 0 {
      RulesField(tl, p, n - 1, d);
      AddRuleField(FoldRules(tl, p, n - 1), p, p.rules[n - 1], d);
    }
  }

  lemma {:induction false} TeamFieldIsLeast(policies: seq<Policy>, team: string, n: nat, d: Dim)
    requires n <= |policies|
    ensures IsLeastAsked(policies, team, n, d, Field(TeamFold(policies, team, n).0, d))
  {
    hide Asks, FoldRules;
    if n > 0 {
      TeamFieldIsLeast(policies, team, n - 1, d);
      var p := policies[n - 1];
      if ForTeam(p, team) {
        RulesField(TeamFold(policies, team, n - 1).0, p, |p.rules|, d);
      }
    }
  }

  // ---- which budgets cap ------------------------------------------------------------------------------

  predicate DistinctNames(p: Policy) {
    forall i, j :: 0 <= i < j < |p.rules| ==> p.rules[i].name != p.rules[j].name
  }

  lemma {:induction false} FirstNamedIs(rules: seq<Rule>, i: nat)
    requires i < |rules| && forall j :: 0 <= j < i ==> rules[j].name != rules[i].name
    ensures FirstNamed(rules, rules[i].name) == Some(rules[i])
  {
    if i > 0 {
      FirstNamedIs(rules[1..], i - 1);
    }
  }

  /**
   Which budgets cap a team: with rule names distinct, as validation demands, a finite budget caps its window
   exactly when it is hard or no strict tier of the policy refers to it.
   */
  lemma {:induction false} BudgetCapsIff(p: Policy, i: nat, w: Period)
    requires Validated(p) && DistinctNames(p) && p.team != "" && p.user == "" && i < |p.rules|
    requires p.rules[i].budget.Some? && p.rules[i].name != ""
    ensures var b := p.rules[i].budget.value;
            Caps(p, p.rules[i], w) <==>
            && !b.unlimited && b.period == w
            && (b.hard || forall j :: 0 <= j < |p.rules| ==> p.rules[j].strictTierRef != Some(p.rules[i].name))
  {
    FirstNamedIs(p.rules, i);
  }

  /** A hard budget always binds its team: in its window the team's limit is set, and no larger. */
  lemma {:induction false} HardBudgetBinds(policies: seq<Policy>, team: string, p: Policy, i: nat)
    requires forall j :: 0 <= j < |policies| ==> Validated(policies[j])
    requires p in policies && DistinctNames(p) && p.team == team != "" && p.user == "" && i < |p.rules| && p.rules[i].name != ""
    requires p.rules[i].budget.Some? && p.rules[i].budget.value.hard && !p.rules[i].budget.value.unlimited
    ensures var b := p.rules[i].budget.value;
            0 < Window(TeamFold(policies, team, |policies|).0, b.period).limit <= b.limit
  {
    var b := p.rules[i].budget.value;
    var at :| 0 <= at < |policies| && policies[at] == p;
    TeamFoldMeansLeast(policies, team, b.period);
    TeamMeets(policies, team, |policies|, b.period);
    assert policies[..|policies|] == policies;
    BudgetCapsIff(p, i, b.period);
    hide Caps, TeamFold, Validated;
    assert CapOf(p.rules[i]) in AllCaps(policies, ChooseTeam(team), b.period);
  }
}
