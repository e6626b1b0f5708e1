/** Whom a policy is for: the selectors of routing and of limits are the same, and what routing hands out. */
module Subjects {
  import opened Options
  import opened PolicyLatch
  import F = LimitFold
  import M = LimitMerge

  /**
   Routing matches a subject exactly when limits do: a team's policy for everyone in the team, a user's policy for
   that user in the team it names or in every team, a policy without a subject for everyone. Nobody without a user
   name is a user.
   */
  lemma {:induction false} SelectorsAgree(sub: Subject, rules: seq<F.Rule>, team: string, user: string)
    ensures sub.user == "" && sub.team != "" ==> (Matches(sub, team, user) <==> F.ForTeam(F.Policy(sub.team, "", rules), team))
    ensures sub.user != "" && user != "" ==>
              (Matches(sub, team, user) <==> M.ChooseMatching(team, user)(F.Policy(sub.team, sub.user, rules)))
    ensures sub.user != "" && user == "" ==> !Matches(sub, team, user)
    ensures Matches(Subject("", ""), team, user)
  {
  }

  /** How often a rule is in a list. */
  function Count(rules: seq<Rule>, r: Rule): nat {
    if rules == [] then 0 else Count(rules[..|rules| - 1], r) + if rules[|rules| - 1] == r then 1 else 0
  }

  lemma {:induction false} CountPush(rules: seq<Rule>, last: Rule, r: Rule)
    ensures Count(rules + [last], r) == Count(rules, r) + if last == r then 1 else 0
  {
    assert (rules + [last])[..|rules|] == rules;
  }

  /** The rules kept are the sensitive-data and context rules, each as often as it was there. */
  lemma {:induction false} RoutingRulesAre(rules: seq<Rule>, n: nat, r: Rule)
    requires n <= |rules|
    ensures Count(RoutingRules(rules, n), r) == if r.sensitive || r.context then Count(rules[..n], r) else 0
  {
    hide Count;
    assert Count([], r) == 0 by { CountNone(r); }
    if n > 0 {
      RoutingRulesAre(rules, n - 1, r);
      assert rules[..n] == rules[..n - 1] + [rules[n - 1]];
      CountPush(rules[..n - 1], rules[n - 1], r);
      CountPush(RoutingRules(rules, n - 1), rules[n - 1], r);
      assert RoutingRules(rules, n - 1) + [] == RoutingRules(rules, n - 1);
    }
  }

  lemma {:induction false} CountNone(r: Rule)
    ensures Count([], r) == 0
  {
  }

  /**
   What routing hands out for an identity: a policy that matches, with its routing rules and nothing else of it, if
   it has any; and every such policy is handed out.
   */
  lemma {:induction false} RoutingHandsOut(policies: seq<Policy>, n: nat, team: string, user: string)
    requires n <= |policies|
    ensures forall q :: q in RoutingOf(policies, n, team, user) <==>
              exists i :: 0 <= i < n && HandedOut(policies[i], q, team, user)
  {
    hide HandedOut;
    if n > 0 {
      RoutingHandsOut(policies, n - 1, team, user);
      HandedOutIs(policies[n - 1], team, user);
    }
  }

  ghost predicate HandedOut(p: Policy, q: Policy, team: string, user: string) {
    && Matches(p.subject, team, user) && q.name == p.name && q.subject == p.subject
    && q.rules == RoutingRules(p.rules, |p.rules|) && exists r :: r in p.rules && (r.sensitive || r.context)
  }

  lemma {:induction false} HandedOutIs(p: Policy, team: string, user: string)
    ensures forall q :: HandedOut(p, q, team, user) <==>
              Matches(p.subject, team, user) && RoutingRules(p.rules, |p.rules|) != []
              && q == p.(rules := RoutingRules(p.rules, |p.rules|))
  {
    KeepsSome(p.rules, |p.rules|);
  }

  lemma {:induction false} KeepsSome(rules: seq<Rule>, n: nat)
    requires n <= |rules|
    ensures RoutingRules(rules, n) != [] <==> exists r :: r in rules[..n] && (r.sensitive || r.context)
    ensures n == |rules| ==> rules[..n] == rules
  {
    if n > 0 {
      KeepsSome(rules, n - 1);
      assert rules[..n] == rules[..n - 1] + [rules[n - 1]];
    }
  }

  /** The policy is what a document says to an identity: its name, its subject and its routing rules. */
  ghost predicate SaidBy(d: Doc, q: Policy, team: string, user: string) {
    && Matches(d.subject, team, user) && q.name == d.name && q.subject == d.subject
    && q.rules == RoutingRules(d.rules, |d.rules|) && exists r :: r in d.rules && (r.sensitive || r.context)
  }

  lemma {:induction false} AcceptedAre(docs: seq<Doc>, n: nat)
    requires n <= |docs|
    ensures forall p :: p in Accepted(docs, n) <==> exists i: nat :: i < n && Accepts(docs, i) && p == PolicyOf(docs[i])
  {
    hide Accepts, PolicyOf;
    if n > 0 {
      AcceptedAre(docs, n - 1);
    }
  }

  /**
   From documents to requests: unless an identity is refused, what routing hands out for it after a distribution is
   what the accepted documents that match it say, and nothing else.
   */
  lemma {:induction false} DistributionHandsOut(docs: seq<Doc>, team: string, user: string, q: Policy)
    ensures var policies := Accepted(docs, |docs|);
            q in RoutingOf(policies, |policies|, team, user) <==>
            exists i: nat :: i < |docs| && Accepts(docs, i) && SaidBy(docs[i], q, team, user)
  {
    var policies := Accepted(docs, |docs|);
    AcceptedAre(docs, |docs|);
    RoutingHandsOut(policies, |policies|, team, user);
    hide Accepted, RoutingOf, Accepts, RoutingRules, Matches;
    if q in RoutingOf(policies, |policies|, team, user) {
      var k :| 0 <= k < |policies| && HandedOut(policies[k], q, team, user);
      assert policies[k] in policies;
      var i: nat :| i < |docs| && Accepts(docs, i) && policies[k] == PolicyOf(docs[i]);
      assert SaidBy(docs[i], q, team, user);
    }
    if i: nat :| i < |docs| && Accepts(docs, i) && SaidBy(docs[i], q, team, user) {
      var p := PolicyOf(docs[i]);
      assert p in policies;
      var k :| 0 <= k < |policies| && policies[k] == p;
      assert HandedOut(policies[k], q, team, user);
    }
  }
}
