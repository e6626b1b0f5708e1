/** The merge loops that build the per-team and per-user tables, and the two-entry user lookup. */
module LimitMerge {
  import opened Periods
  import opened Options
  import opened LimitFold

  // ---- teams ----------------------------------------------------------------------------------------

  lemma {:induction false} FoldRulesIdle(tl: TeamLimits, p: Policy, n: nat)
    requires n <= |p.rules| && !Contributes(p, n)
    ensures FoldRules(tl, p, n) == tl
  {
    if n > 0 {
      FoldRulesIdle(tl, p, n - 1);
    }
  }

  lemma {:induction false} TeamFoldIdle(policies: seq<Policy>, team: string, n: nat)
    requires n <= |policies| && !TeamFold(policies, team, n).1
    ensures TeamFold(policies, team, n).0 == NO_LIMITS
  {
    hide FoldRules;
    if n > 0 {
      TeamFoldIdle(policies, team, n - 1);
      if ForTeam(policies[n - 1], team) {
        FoldRulesIdle(NO_LIMITS, policies[n - 1], |policies[n - 1].rules|);
      }
    }
  }

  /** The table holds exactly the contributed folds. */
  ghost predicate TeamTable(out: map<string, TeamLimits>, policies: seq<Policy>, n: nat)
    requires n <= |policies|
  {
    forall team ::
      && (team in out <==> TeamFold(policies, team, n).1)
      && (team in out ==> out[team] == TeamFold(policies, team, n).0)
  }

  /** A team gets an entry only when some rule contributed, and then its fold. */
  method MergeTeamLimits(policies: seq<Policy>) returns (out: map<string, TeamLimits>)
    ensures TeamTable(out, policies, |policies|)
  {
    hide FoldRules, RoutingOnly;
    out := map[];
    for n := 0 to |policies|
      invariant TeamTable(out, policies, n)
    {
      var p := policies[n];
      if p.team == "" || p.user != "" {
        continue;
      }
      TeamFoldIdleIfAbsent(out, policies, p.team, n);
      var contributed := p.team in out;
      var tl := if contributed then out[p.team] else NO_LIMITS;
      tl, contributed := FoldPolicy(tl, contributed, p);
      if contributed {
        out := out[p.team := tl];
      }
    }
  }

  lemma {:induction false} TeamFoldIdleIfAbsent(out: map<string, TeamLimits>, policies: seq<Policy>, team: string,
                                             n: nat)
    requires n <= |policies| && TeamTable(out, policies, n)
    ensures team !in out ==> TeamFold(policies, team, n) == (NO_LIMITS, false)
  {
    if team !in out {
      TeamFoldIdle(policies, team, n);
    }
  }

  /** One policy's rules, one after another. */
  method FoldPolicy(start: TeamLimits, already: bool, p: Policy) returns (tl: TeamLimits, contributed: bool)
    ensures tl == FoldRules(start, p, |p.rules|)
    ensures contributed <==> already || Contributes(p, |p.rules|)
  {
    hide RoutingOnly;
    tl, contributed := start, already;
    for i := 0 to |p.rules|
      invariant tl == FoldRules(start, p, i)
      invariant contributed <==> already || Contributes(p, i)
    {
      var r := p.rules[i];
      if r.rate.Some? {
        contributed := true;
        tl := tl.(rpm := MinNonZero(tl.rpm, r.rate.value.rpm), tpm := MinNonZero(tl.tpm, r.rate.value.tpm));
      }
      if r.budget.Some? {
        contributed := true;
        var b := r.budget.value;
        if RoutingOnly(p, r.name) {
          if b.period.CalendarDay? {
            tl := tl.(routingDay := MinNonZero(tl.routingDay, b.limit));
          } else {
            tl := tl.(routingMonth := MinNonZero(tl.routingMonth, b.limit));
          }
        } else if b.unlimited {
          // An explicit "no cap" neither narrows nor widens anything.
        } else if b.period.CalendarDay? {
          tl := tl.(day := Ladder(tl.day, b));
        } else {
          tl := tl.(month := Ladder(tl.month, b));
        }
      }
    }
  }

  // ---- users ----------------------------------------------------------------------------------------

  datatype UserKey = UserKey(team: string, user: string)

  datatype UserLimits = UserLimits(month: Cap, day: Cap)

  const NO_USER_LIMITS: UserLimits := UserLimits(NO_CAP, NO_CAP)

  function NarrowUser(u: UserLimits, o: UserLimits): UserLimits {
    UserLimits(Narrow(u.month, o.month), Narrow(u.day, o.day))
  }

  /** One budget rule lifted into a single-window view. */
  function FromBudget(b: Budget): UserLimits {
    if b.period.CalendarDay? then UserLimits(NO_CAP, Cap(b.limit, b.hard)) else UserLimits(Cap(b.limit, b.hard), NO_CAP)
  }

  function UserWindow(u: UserLimits, w: Period): Cap {
    if w.CalendarDay? then u.day else u.month
  }

  function FoldUserRules(u: UserLimits, p: Policy, n: nat): UserLimits
    requires n <= |p.rules|
  {
    if n == 0 then u
    else
      var before, r := FoldUserRules(u, p, n - 1), p.rules[n - 1];
      if r.budget.Some? && !r.budget.value.unlimited then NarrowUser(before, FromBudget(r.budget.value)) else before
  }

  predicate Budgets(p: Policy, n: nat)
    requires n <= |p.rules|
  {
    exists i :: 0 <= i < n && p.rules[i].budget.Some?
  }

  predicate ForUser(p: Policy, k: UserKey) {
    p.user != "" && p.team == k.team && p.user == k.user
  }

  function ChooseUser(k: UserKey): Policy -> bool {
    (p: Policy) => ForUser(p, k)
  }

  function UserFold(policies: seq<Policy>, k: UserKey, n: nat): (UserLimits, bool)
    requires n <= |policies|
  {
    if n == 0 then (NO_USER_LIMITS, false)
    else
      var before, p := UserFold(policies, k, n - 1), policies[n - 1];
      if ForUser(p, k) then (FoldUserRules(before.0, p, |p.rules|), before.1 || Budgets(p, |p.rules|)) else before
  }

  ghost predicate UserTable(out: map<UserKey, UserLimits>, policies: seq<Policy>, n: nat)
    requires n <= |policies|
  {
    forall k ::
      && (k in out <==> UserFold(policies, k, n).1)
      && (k in out ==> out[k] == UserFold(policies, k, n).0)
  }

  lemma {:induction false} FoldUserIdle(u: UserLimits, p: Policy, n: nat)
    requires n <= |p.rules| && !Budgets(p, n)
    ensures FoldUserRules(u, p, n) == u
  {
    if n > 0 {
      FoldUserIdle(u, p, n - 1);
    }
  }

  lemma {:induction false} UserFoldIdle(policies: seq<Policy>, k: UserKey, n: nat)
    requires n <= |policies| && !UserFold(policies, k, n).1
    ensures UserFold(policies, k, n).0 == NO_USER_LIMITS
  {
    hide FoldUserRules;
    if n > 0 {
      UserFoldIdle(policies, k, n - 1);
      if ForUser(policies[n - 1], k) {
        FoldUserIdle(NO_USER_LIMITS, policies[n - 1], |policies[n - 1].rules|);
      }
    }
  }

  method MergeUserLimits(policies: seq<Policy>) returns (out: map<UserKey, UserLimits>)
    ensures UserTable(out, policies, |policies|)
  {
    hide FoldUserRules;
    out := map[];
    for n := 0 to |policies|
      invariant UserTable(out, policies, n)
    {
      var p := policies[n];
      if p.user == "" {
        continue;
      }
      var k := UserKey(p.team, p.user);
      if k !in out {
        UserFoldIdle(policies, k, n);
      }
      var contributed := k in out;
      var u := if contributed then out[k] else NO_USER_LIMITS;
      u, contributed := FoldUserPolicy(u, contributed, p);
      if contributed {
        out := out[k := u];
      }
    }
  }

  method FoldUserPolicy(start: UserLimits, already: bool, p: Policy) returns (u: UserLimits, contributed: bool)
    ensures u == FoldUserRules(start, p, |p.rules|)
    ensures contributed <==> already || Budgets(p, |p.rules|)
  {
    hide NarrowUser;
    u, contributed := start, already;
    for i := 0 to |p.rules|
      invariant u == FoldUserRules(start, p, i)
      invariant contributed <==> already || Budgets(p, i)
    {
      var r := p.rules[i];
      if r.budget.None? {
        continue;
      }
      contributed := true;
      if r.budget.value.unlimited {
        continue;
      }
      u := NarrowUser(u, FromBudget(r.budget.value));
    }
  }

  // ---- what a user's limits mean --------------------------------------------------------------------

  lemma {:induction false} UserRulesMeet(u: UserLimits, p: Policy, n: nat, w: Period, caps: set<Cap>)
    requires n <= |p.rules| && p.user != "" && Validated(p) && Positive(caps) && IsMeet(caps, UserWindow(u, w))
    ensures IsMeet(caps + PolicyCaps(p, n, w), UserWindow(FoldUserRules(u, p, n), w)) && Positive(caps + PolicyCaps(p, n, w))
  {
    hide IsMeet, Narrow;
    if n == 0 {
      assert PolicyCaps(p, 0, w) == {};
      assert caps + {} == caps;
    } else {
      var r, before := p.rules[n - 1], caps + PolicyCaps(p, n - 1, w);
      UserRulesMeet(u, p, n - 1, w, caps);
      assert !RoutingOnly(p, r.name);
      var c := UserWindow(FoldUserRules(u, p, n - 1), w);
      if Caps(p, r, w) {
        NarrowIsUnion(before, c, {CapOf(r)}, CapOf(r));
        assert before + {CapOf(r)} == caps + PolicyCaps(p, n, w);
      } else {
        MeetIsProper(before, c);
        NarrowLaws(c, c, c);
        assert before == caps + PolicyCaps(p, n, w);
      }
    }
  }

  lemma {:induction false} UserMeets(policies: seq<Policy>, k: UserKey, n: nat, w: Period)
    requires n <= |policies| && forall i :: 0 <= i < |policies| ==> Validated(policies[i])
    ensures IsMeet(AllCaps(policies[..n], ChooseUser(k), w), UserWindow(UserFold(policies, k, n).0, w))
    ensures Positive(AllCaps(policies[..n], ChooseUser(k), w))
  {
    hide IsMeet, RoutingOnly, FoldUserRules;
    if n == 0 {
      assert AllCaps(policies[..0], ChooseUser(k), w) == {};
      EmptyMeet();
    } else {
      UserMeets(policies, k, n - 1, w);
      AllCapsStep(policies, n - 1, ChooseUser(k), w);
      var p, caps := policies[n - 1], AllCaps(policies[..n - 1], ChooseUser(k), w);
      if ForUser(p, k) {
        UserRulesMeet(UserFold(policies, k, n - 1).0, p, |p.rules|, w, caps);
      } else {
        assert caps + {} == caps;
      }
    }
  }

  /** The lookup for a request: the entry for this user in this team, narrowed by the one for this user anywhere. */
  function LookupUser(m: map<UserKey, UserLimits>, team: string, user: string): Option<UserLimits> {
    var scoped, anywhere := UserKey(team, user), UserKey("", user);
    if user == "" then None
    else if scoped in m && anywhere in m then Some(NarrowUser(m[scoped], m[anywhere]))
    else if scoped in m then Some(m[scoped])
    else if anywhere in m then Some(m[anywhere])
    else None
  }

  /** The user-subject policies that apply to a request by this user in this team. */
  function ChooseMatching(team: string, user: string): Policy -> bool {
    (p: Policy) => p.user != "" && p.user == user && (p.team == "" || p.team == team)
  }

  lemma {:induction false} MatchingIsUnion(policies: seq<Policy>, team: string, user: string, w: Period)
    ensures AllCaps(policies, ChooseMatching(team, user), w)
            == AllCaps(policies, ChooseUser(UserKey(team, user)), w) + AllCaps(policies, ChooseUser(UserKey("", user)), w)
  {
    hide Caps;
    var all, a, b := ChooseMatching(team, user), ChooseUser(UserKey(team, user)), ChooseUser(UserKey("", user));
    assert forall p :: all(p) <==> a(p) || b(p);
  }

  /**
   Two entries, one fold: what a user's request is limited to, in each window, is the meet of every
   matching rule - those for the user in this team and those for the user anywhere - as if all of them
   had been folded together. No entry is invented when nothing matches.
   */
  lemma {:induction false} UserLookupIsOneFold(policies: seq<Policy>, m: map<UserKey, UserLimits>, team: string,
                                             user: string, w: Period)
    requires forall i :: 0 <= i < |policies| ==> Validated(policies[i])
    requires UserTable(m, policies, |policies|) && user != ""
    ensures var l := LookupUser(m, team, user);
            && IsMeet(AllCaps(policies, ChooseMatching(team, user), w), if l.Some? then UserWindow(l.value, w) else NO_CAP)
            && (l.None? <==> UserKey(team, user) !in m && UserKey("", user) !in m)
  {
    hide IsMeet, AllCaps, Narrow;
    var n, s, g := |policies|, UserKey(team, user), UserKey("", user);
    assert policies[..n] == policies;
    UserMeets(policies, s, n, w);
    UserMeets(policies, g, n, w);
    MatchingIsUnion(policies, team, user, w);
    var cs, cg := AllCaps(policies, ChooseUser(s), w), AllCaps(policies, ChooseUser(g), w);
    var us, ug := UserWindow(UserFold(policies, s, n).0, w), UserWindow(UserFold(policies, g, n).0, w);
    NarrowIsUnion(cs, us, cg, ug);
    MeetIsProper(cs, us);
    MeetIsProper(cg, ug);
    NarrowLaws(us, ug, us);
    NarrowLaws(ug, us, ug);
    if s !in m {
      UserFoldIdle(policies, s, n);
    }
    if g !in m {
      UserFoldIdle(policies, g, n);
    }
  }
}
