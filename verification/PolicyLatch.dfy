/**
 The fail-closed latch of policy distribution: a rejected document that carries, or replaces, a mandatory
 routing rule leaves its subjects refused until a valid correction arrives.
 */
module PolicyLatch {
  import opened Options

  datatype Subject = Subject(team: string, user: string)

  datatype Rule = Rule(tokenQuota: bool, sensitive: bool, strictTiers: bool, context: bool)

  /** A set selector must match, an empty one does not constrain. */
  predicate Matches(sub: Subject, team: string, user: string) {
    (sub.team == "" || sub.team == team) && (sub.user == "" || (user != "" && sub.user == user))
  }

  predicate MandatoryRule(r: Rule) {
    r.tokenQuota || r.sensitive || r.strictTiers
  }

  predicate RoutingRule(r: Rule) {
    r.sensitive || r.context
  }

  predicate AnyMandatory(rules: seq<Rule>) {
    exists i :: 0 <= i < |rules| && MandatoryRule(rules[i])
  }

  datatype Policy = Policy(name: string, subject: Subject, rules: seq<Rule>)

  /** One distributed document; `ok` is the verdict of parsing and of the enforceability check on it. */
  datatype Doc = Doc(name: string, subject: Subject, rules: seq<Rule>, ok: bool)

  function PolicyOf(d: Doc): Policy {
    Policy(d.name, d.subject, d.rules)
  }

  // ---- what one distribution accepts and rejects ----------------------------------------------------

  predicate Named(docs: seq<Doc>, i: nat, name: string)
  {
    i < |docs| && docs[i].name == name
  }

  /** The first document of its name, valid, and named at all. */
  predicate Accepts(docs: seq<Doc>, i: nat) {
    i < |docs| && docs[i].ok && docs[i].name != "" && forall j: nat :: j < i ==> !Named(docs, j, docs[i].name)
  }

  function Accepted(docs: seq<Doc>, n: nat): seq<Policy>
    requires n <= |docs|
  {
    if n == 0 then []
    else Accepted(docs, n - 1) + if Accepts(docs, n - 1) then [PolicyOf(docs[n - 1])] else []
  }

  /** The names reported back upstream, one for each rejected document. */
  function Rejected(docs: seq<Doc>, n: nat): seq<string>
    requires n <= |docs|
  {
    if n == 0 then []
    else Rejected(docs, n - 1) + if Accepts(docs, n - 1) then [] else [docs[n - 1].name]
  }

  // ---- what one distribution latches and clears -----------------------------------------------------

  /** A policy of this name with a mandatory rule for this subject. */
  predicate Guards(p: Policy, name: string, sub: Subject) {
    p.name == name && p.subject == sub && AnyMandatory(p.rules)
  }

  predicate Guarded(policies: seq<Policy>, name: string, sub: Subject) {
    exists i :: 0 <= i < |policies| && Guards(policies[i], name, sub)
  }

  /**
   Some document of this name is rejected, and it, a policy it would have replaced or an earlier document
   of this distribution has a mandatory rule for the subject.
   */
  ghost predicate Latches(before: seq<Policy>, docs: seq<Doc>, n: nat, name: string, sub: Subject)
    requires n <= |docs|
  {
    exists i: nat ::
      i < n && Named(docs, i, name) && !Accepts(docs, i) && Exposes(docs[i], before, Accepted(docs, i), name, sub)
  }

  predicate Exposes(d: Doc, before: seq<Policy>, accepted: seq<Policy>, name: string, sub: Subject) {
    d.name == name && (Guards(PolicyOf(d), name, sub) || Guarded(before, name, sub) || Guarded(accepted, name, sub))
  }

  /**
   Exactly one document of the name, and it is accepted; for the nameless, a non-empty distribution without
   rejections.
   */
  ghost predicate Clears(docs: seq<Doc>, name: string) {
    if name == "" then docs != [] && forall i: nat :: i < |docs| ==> Accepts(docs, i)
    else exists i: nat :: Named(docs, i, name) && Accepts(docs, i) && forall j: nat :: Named(docs, j, name) ==> j == i
  }

  predicate Pending(m: map<string, seq<Subject>>, name: string, sub: Subject) {
    name in m && sub in m[name]
  }

  ghost predicate Applied(was: map<string, seq<Subject>>, before: seq<Policy>, docs: seq<Doc>,
                          now: map<string, seq<Subject>>) {
    forall name, sub :: Pending(now, name, sub)
      <==> Latches(before, docs, |docs|, name, sub) || (Pending(was, name, sub) && !Clears(docs, name))
  }

  lemma {:induction false} RejectedNone(docs: seq<Doc>, n: nat)
    requires n <= |docs|
    ensures Rejected(docs, n) == [] <==> forall i: nat :: i < n ==> Accepts(docs, i)
  {
    hide Accepts;
    if n > 0 {
      RejectedNone(docs, n - 1);
    }
  }

  // ---- the store ------------------------------------------------------------------------------------

  method HasMandatoryRouting(rules: seq<Rule>) returns (r: bool)
    ensures r <==> AnyMandatory(rules)
    ensures r <==> exists x :: x in rules && (x.tokenQuota || x.sensitive || x.strictTiers)
  {
    for i := 0 to |rules|
      invariant forall j :: 0 <= j < i ==> !MandatoryRule(rules[j])
    {
      if MandatoryRule(rules[i]) {
        return true;
      }
    }
    return false;
  }

  /** Adds the subject of every listed policy of the name that has a mandatory rule, once each. */
  method AddGuards(start: seq<Subject>, name: string, policies: seq<Policy>) returns (subjects: seq<Subject>)
    ensures forall sub :: sub in subjects <==> sub in start || Guarded(policies, name, sub)
  {
    hide AnyMandatory;
    subjects := start;
    for i := 0 to |policies|
      invariant forall sub :: sub in subjects <==> sub in start || exists j :: 0 <= j < i && Guards(policies[j], name, sub)
    {
      var p := policies[i];
      var mandatory := HasMandatoryRouting(p.rules);
      if p.name == name && mandatory && p.subject !in subjects {
        subjects := subjects + [p.subject];
      }
      assert forall sub :: Guards(p, name, sub) <==> p.name == name && mandatory && sub == p.subject;
    }
  }

  /** Records every subject that a rejection of this document may leave unprotected. */
  method Remember(m: map<string, seq<Subject>>, d: Doc, before: seq<Policy>, accepted: seq<Policy>)
    returns (r: map<string, seq<Subject>>)
    ensures forall name, sub :: Pending(r, name, sub) <==> Pending(m, name, sub) || Exposes(d, before, accepted, name, sub)
  {
    hide AnyMandatory, Guarded;
    var subjects := if d.name in m then m[d.name] else [];
    var mandatory := HasMandatoryRouting(d.rules);
    if mandatory && d.subject !in subjects {
      subjects := subjects + [d.subject];
    }
    subjects := AddGuards(subjects, d.name, before);
    subjects := AddGuards(subjects, d.name, accepted);
    r := if |subjects| > 0 then m[d.name := subjects] else m;
  }

  /** What has been recorded, and not yet cleared, after the first n documents. */
  ghost predicate AppliedTo(was: map<string, seq<Subject>>, before: seq<Policy>, docs: seq<Doc>, n: nat,
                            now: map<string, seq<Subject>>)
    requires n <= |docs|
  {
    forall name, sub :: Pending(now, name, sub)
      <==> Latches(before, docs, n, name, sub) || (Pending(was, name, sub) && !ClearedBy(docs, n, name))
  }

  ghost predicate ClearedBy(docs: seq<Doc>, n: nat, name: string) {
    name != ""
    && exists i: nat ::
         i < n && Named(docs, i, name) && Accepts(docs, i) && forall j: nat :: Named(docs, j, name) ==> j == i
  }

  lemma {:induction false} AfterRejection(was: map<string, seq<Subject>>, before: seq<Policy>, docs: seq<Doc>, n: nat,
                                          now: map<string, seq<Subject>>, next: map<string, seq<Subject>>)
    requires n < |docs| && AppliedTo(was, before, docs, n, now) && !Accepts(docs, n)
    requires forall name, sub ::
      Pending(next, name, sub) <==> Pending(now, name, sub) || Exposes(docs[n], before, Accepted(docs, n), name, sub)
    ensures AppliedTo(was, before, docs, n + 1, next)
  {
    hide Pending, Guards, Guarded, Accepts, Accepted;
    forall name, sub
      ensures Pending(next, name, sub)
              <==> (Latches(before, docs, n + 1, name, sub)
                    || (Pending(was, name, sub) && !ClearedBy(docs, n + 1, name)))
    {
      assert Named(docs, n, name) <==> name == docs[n].name;
      assert ClearedBy(docs, n + 1, name) <==> ClearedBy(docs, n, name);
    }
  }

  lemma {:induction false} AfterAcceptance(was: map<string, seq<Subject>>, before: seq<Policy>, docs: seq<Doc>, n: nat,
                                           now: map<string, seq<Subject>>, only: bool)
    requires n < |docs| && AppliedTo(was, before, docs, n, now) && Accepts(docs, n)
    requires only <==> forall j: nat :: Named(docs, j, docs[n].name) ==> j == n
    ensures AppliedTo(was, before, docs, n + 1, if only then now - {docs[n].name} else now)
  {
    hide Exposes, Accepted;
    var next := if only then now - {docs[n].name} else now;
    forall name, sub
      ensures Pending(next, name, sub)
              <==> (Latches(before, docs, n + 1, name, sub)
                    || (Pending(was, name, sub) && !ClearedBy(docs, n + 1, name)))
    {
      assert Named(docs, n, name) <==> name == docs[n].name;
      assert Latches(before, docs, n + 1, name, sub) <==> Latches(before, docs, n, name, sub);
      if name == docs[n].name {
        assert ClearedBy(docs, n + 1, name) <==> only || ClearedBy(docs, n, name);
        assert only ==> !Latches(before, docs, n, name, sub);
      } else {
        assert ClearedBy(docs, n + 1, name) <==> ClearedBy(docs, n, name);
      }
    }
  }

  lemma {:induction false} AtTheEnd(was: map<string, seq<Subject>>, before: seq<Policy>, docs: seq<Doc>,
                                    now: map<string, seq<Subject>>)
    requires AppliedTo(was, before, docs, |docs|, now)
    ensures var all := docs != [] && forall i: nat :: i < |docs| ==> Accepts(docs, i);
            Applied(was, before, docs, if all then now - {""} else now)
  {
    hide Exposes, Accepted;
    var all := docs != [] && forall i: nat :: i < |docs| ==> Accepts(docs, i);
    var next := if all then now - {""} else now;
    forall name, sub
      ensures Pending(next, name, sub)
              <==> Latches(before, docs, |docs|, name, sub) || (Pending(was, name, sub) && !Clears(docs, name))
    {
      if name != "" {
        assert ClearedBy(docs, |docs|, name) <==> Clears(docs, name);
      }
    }
  }

  function CountNamed(docs: seq<Doc>, n: nat, name: string): nat
    requires n <= |docs|
  {
    if n == 0 then 0 else CountNamed(docs, n - 1, name) + if docs[n - 1].name == name then 1 else 0
  }

  lemma {:induction false} CountZero(docs: seq<Doc>, n: nat, name: string)
    requires n <= |docs|
    ensures CountNamed(docs, n, name) == 0 <==> forall j: nat :: j < n ==> !Named(docs, j, name)
  {
    if n > 0 {
      CountZero(docs, n - 1, name);
      assert docs[n - 1].name == name ==> Named(docs, n - 1, name);
    }
  }

  lemma {:induction false} CountOne(docs: seq<Doc>, n: nat, name: string, i: nat)
    requires i < n <= |docs| && docs[i].name == name
    ensures CountNamed(docs, n, name) == 1 <==> forall j: nat :: j < n && Named(docs, j, name) ==> j == i
  {
    CountZero(docs, n - 1, name);
    if i < n - 1 {
      CountOne(docs, n - 1, name, i);
      assert Named(docs, i, name) && (Named(docs, n - 1, name) <==> docs[n - 1].name == name);
    } else if CountNamed(docs, n, name) != 1 {
      var j: nat :| j < n - 1 && Named(docs, j, name);
      assert Named(docs, j, name) && j != i;
    }
  }

  class Store {
    const generationOf: seq<Doc> -> string
    var pending: map<string, seq<Subject>>
    var policies: seq<Policy>
    var generation: Option<string>
    ghost var distributed: seq<Doc>   // the set behind the snapshot

    constructor (generationOf: seq<Doc> -> string)
      ensures this.generationOf == generationOf && pending == map[] && policies == []
      ensures generation == None && distributed == []
    {
      this.generationOf := generationOf;
      pending, policies, generation, distributed := map[], [], None, [];
    }

    /** Applies one distributed set, document by document. */
    method ApplyWire(docs: seq<Doc>) returns (rejected: seq<string>)
      modifies this
      ensures policies == Accepted(docs, |docs|) && rejected == Rejected(docs, |docs|)
      ensures generation == Some(generationOf(docs)) && distributed == docs
      ensures Applied(old(pending), old(policies), docs, pending)
    {
      hide Applied, AppliedTo, Latches, Clears, Exposes, Pending;
      var counts := CountAll(docs);
      var m := pending;
      var accepted: seq<Policy> := [];
      var seen: set<string> := {};
      rejected := [];
      AtTheStart(pending, policies, docs);
      for i := 0 to |docs|
        invariant pending == old(pending) && policies == old(policies)
        invariant accepted == Accepted(docs, i) && rejected == Rejected(docs, i)
        invariant forall name :: name in seen <==> name != "" && exists j: nat :: j < i && Named(docs, j, name)
        invariant AppliedTo(pending, policies, docs, i, m)
      {
        var d := docs[i];
        assert Named(docs, i, d.name);
        if d.name == "" || d.name in seen {
          var next := Remember(m, d, policies, accepted);
          AfterRejection(pending, policies, docs, i, m, next);
          m := next;
          rejected := rejected + [d.name];
          continue;
        }
        seen := seen + {d.name};
        if !d.ok {
          var next := Remember(m, d, policies, accepted);
          AfterRejection(pending, policies, docs, i, m, next);
          m := next;
          rejected := rejected + [d.name];
          continue;
        }
        CountOne(docs, |docs|, d.name, i);
        AfterAcceptance(pending, policies, docs, i, m, counts[d.name] == 1);
        if counts[d.name] == 1 {
          m := m - {d.name};
        }
        accepted := accepted + [PolicyOf(d)];
      }
      RejectedNone(docs, |docs|);
      AtTheEnd(pending, policies, docs, m);
      if |rejected| == 0 && |docs| > 0 {
        m := m - {""};
      }
      pending, policies, generation, distributed := m, accepted, Some(generationOf(docs)), docs;
    }

    /** Refuses every identity a pending subject matches; otherwise the matching routing rules, in order. */
    method RoutingSnapshot(team: string, user: string) returns (refused: bool, found: seq<Policy>,
                           bundle: Option<string>)
      ensures bundle == generation
      ensures refused <==> exists name, sub :: Pending(pending, name, sub) && Matches(sub, team, user)
      ensures found == if refused then [] else RoutingOf(policies, |policies|, team, user)
    {
      hide Matches, RoutingRules;
      bundle := generation;
      var names := pending.Keys;
      while names != {}
        invariant names <= pending.Keys
        invariant forall name, sub :: name in pending && name !in names && sub in pending[name] ==> !Matches(sub, team, user)
      {
        var name :| name in names;
        for i := 0 to |pending[name]|
          invariant forall j :: 0 <= j < i ==> !Matches(pending[name][j], team, user)
        {
          if Matches(pending[name][i], team, user) {
            assert Pending(pending, name, pending[name][i]);
            return true, [], bundle;
          }
        }
        names := names - {name};
      }
      refused, found := false, [];
      for i := 0 to |policies|
        invariant found == RoutingOf(policies, i, team, user)
      {
        var p := policies[i];
        if Matches(p.subject, team, user) {
          var rules := FilterRouting(p.rules);
          if |rules| > 0 {
            found := found + [p.(rules := rules)];
          }
        }
      }
    }
  }

  function RoutingRules(rules: seq<Rule>, n: nat): seq<Rule>
    requires n <= |rules|
  {
    if n == 0 then [] else RoutingRules(rules, n - 1) + if RoutingRule(rules[n - 1]) then [rules[n - 1]] else []
  }

  function RoutingOf(policies: seq<Policy>, n: nat, team: string, user: string): seq<Policy>
    requires n <= |policies|
  {
    if n == 0 then []
    else
      var p := policies[n - 1];
      var rules := RoutingRules(p.rules, |p.rules|);
      RoutingOf(policies, n - 1, team, user)
      + if Matches(p.subject, team, user) && rules != [] then [p.(rules := rules)] else []
  }

  method FilterRouting(rules: seq<Rule>) returns (kept: seq<Rule>)
    ensures kept == RoutingRules(rules, |rules|)
  {
    kept := [];
    for i := 0 to |rules|
      invariant kept == RoutingRules(rules, i)
    {
      if RoutingRule(rules[i]) {
        kept := kept + [rules[i]];
      }
    }
  }

  method CountAll(docs: seq<Doc>) returns (counts: map<string, nat>)
    ensures forall i :: 0 <= i < |docs| ==> docs[i].name in counts
    ensures forall name :: name in counts ==> counts[name] == CountNamed(docs, |docs|, name)
  {
    counts := map[];
    for i := 0 to |docs|
      invariant forall j :: 0 <= j < i ==> docs[j].name in counts
      invariant forall name :: name !in counts ==> CountNamed(docs, i, name) == 0
      invariant forall name :: name in counts ==> counts[name] == CountNamed(docs, i, name)
    {
      var name := docs[i].name;
      counts := counts[name := (if name in counts then counts[name] else 0) + 1];
    }
  }

  lemma {:induction false} AtTheStart(was: map<string, seq<Subject>>, before: seq<Policy>, docs: seq<Doc>)
    ensures AppliedTo(was, before, docs, 0, was)
  {
  }

  // ---- runs -----------------------------------------------------------------------------------------

  function PoliciesAfter(history: seq<seq<Doc>>, n: nat): seq<Policy>
    requires n <= |history|
  {
    if n == 0 then [] else Accepted(history[n - 1], |history[n - 1]|)
  }

  /** Distribution i rejects a document of the name while a mandatory rule for the subject is at stake. */
  ghost predicate LatchedAt(history: seq<seq<Doc>>, i: nat, name: string, sub: Subject) {
    i < |history| && Latches(PoliciesAfter(history, i), history[i], |history[i]|, name, sub)
  }

  ghost predicate ClearedAt(history: seq<seq<Doc>>, i: nat, name: string) {
    i < |history| && Clears(history[i], name)
  }

  /** The pending tables a store goes through, from an empty store on. */
  ghost predicate Trace(history: seq<seq<Doc>>, tables: seq<map<string, seq<Subject>>>) {
    && |tables| == |history| + 1 && tables[0] == map[]
    && forall i: nat :: i < |history| ==> Applied(tables[i], PoliciesAfter(history, i), history[i], tables[i + 1])
  }

  /** Latched by one of the first n distributions, and not cleared by a later one. */
  ghost predicate HeldSince(history: seq<seq<Doc>>, i: nat, n: nat, name: string, sub: Subject) {
    i < n && LatchedAt(history, i, name, sub) && forall j: nat :: i < j < n ==> !ClearedAt(history, j, name)
  }

  ghost predicate Held(history: seq<seq<Doc>>, n: nat, name: string, sub: Subject) {
    exists i: nat :: HeldSince(history, i, n, name, sub)
  }

  lemma {:induction false} HeldStep(history: seq<seq<Doc>>, n: nat, name: string, sub: Subject)
    requires n < |history|
    ensures Held(history, n + 1, name, sub)
            <==> LatchedAt(history, n, name, sub) || (Held(history, n, name, sub) && !ClearedAt(history, n, name))
  {
    hide LatchedAt, ClearedAt;
    if Held(history, n + 1, name, sub) && !LatchedAt(history, n, name, sub) {
      var i: nat :| HeldSince(history, i, n + 1, name, sub);
      assert HeldSince(history, i, n, name, sub);
    }
    if LatchedAt(history, n, name, sub) {
      assert HeldSince(history, n, n + 1, name, sub);
    } else if Held(history, n, name, sub) && !ClearedAt(history, n, name) {
      var i: nat :| HeldSince(history, i, n, name, sub);
      assert HeldSince(history, i, n + 1, name, sub);
    }
  }

  /** The latch, over every run: a subject is pending exactly while it is held. */
  lemma {:induction false} PendingIffHeld(history: seq<seq<Doc>>, tables: seq<map<string, seq<Subject>>>, n: nat,
                                          name: string, sub: Subject)
    requires Trace(history, tables) && n <= |history|
    ensures Pending(tables[n], name, sub) <==> Held(history, n, name, sub)
  {
    hide Held, Latches, Clears, PoliciesAfter, Pending;
    if n == 0 {
      NothingPending(history, name, sub);
    } else {
      PendingIffHeld(history, tables, n - 1, name, sub);
      HeldStep(history, n - 1, name, sub);
      assert Applied(tables[n - 1], PoliciesAfter(history, n - 1), history[n - 1], tables[n]);
    }
  }

  lemma {:induction false} NothingPending(history: seq<seq<Doc>>, name: string, sub: Subject)
    ensures !Pending(map[], name, sub) && !Held(history, 0, name, sub)
  {
  }

  ghost predicate Refuses(m: map<string, seq<Subject>>, team: string, user: string) {
    exists name, sub :: Pending(m, name, sub) && Matches(sub, team, user)
  }

  /** An identity is refused after n distributions exactly when one of its subjects is still held. */
  lemma {:induction false} RefusedIffHeld(history: seq<seq<Doc>>, tables: seq<map<string, seq<Subject>>>, n: nat,
                                          team: string, user: string)
    requires Trace(history, tables) && n <= |history|
    ensures Refuses(tables[n], team, user) <==> exists name, sub :: Held(history, n, name, sub) && Matches(sub, team, user)
  {
    assert |tables| == |history| + 1;
    hide Held, Pending, Matches, Trace;
    forall name, sub
      ensures Pending(tables[n], name, sub) <==> Held(history, n, name, sub)
    {
      PendingIffHeld(history, tables, n, name, sub);
    }
  }

  /**
   No mandatory rule is silently replaced: when a distribution says anything about the name of a mandatory
   policy in force, either it holds exactly one document of that name and accepts it, or every identity of
   the policy's subject is refused from then on until such a distribution arrives. Leaving the name out of
   later distributions does not help.
   */
  lemma {:induction false} NeverSilentlyReplaced(history: seq<seq<Doc>>, tables: seq<map<string, seq<Subject>>>,
                                                 p: Policy, i: nat, k: nat, n: nat, team: string, user: string)
    requires Trace(history, tables) && i < n <= |history| && p in PoliciesAfter(history, i)
    requires exists r :: r in p.rules && (r.tokenQuota || r.sensitive || r.strictTiers)
    requires Named(history[i], k, p.name) && Matches(p.subject, team, user)
    requires forall j: nat :: i < j < n ==> !ClearedAt(history, j, p.name)
    ensures ClearedAt(history, i, p.name) || Refuses(tables[n], team, user)
  {
    var rule :| rule in p.rules && (rule.tokenQuota || rule.sensitive || rule.strictTiers);
    var w :| 0 <= w < |p.rules| && p.rules[w] == rule;
    assert AnyMandatory(p.rules) by { assert MandatoryRule(p.rules[w]); }
    hide Trace, Matches, AnyMandatory, Accepted, Applied;
    var docs, before := history[i], PoliciesAfter(history, i);
    NamedPolicies(history, i, p);
    var at :| 0 <= at < |before| && before[at] == p;
    assert Guards(before[at], p.name, p.subject);
    assert Guarded(before, p.name, p.subject);
    if !ClearedAt(history, i, p.name) {
      var r := RejectedOne(docs, k, p.name);
      assert Exposes(docs[r], before, Accepted(docs, r), p.name, p.subject);
      assert LatchedAt(history, i, p.name, p.subject);
      assert HeldSince(history, i, n, p.name, p.subject);
      assert Held(history, n, p.name, p.subject);
      RefusedIffHeld(history, tables, n, team, user);
    }
  }

  lemma {:induction false} NamedPolicies(history: seq<seq<Doc>>, i: nat, p: Policy)
    requires i <= |history| && p in PoliciesAfter(history, i)
    ensures p.name != ""
  {
    if i > 0 {
      AcceptedNamed(history[i - 1], |history[i - 1]|, p);
    }
  }

  lemma {:induction false} AcceptedNamed(docs: seq<Doc>, n: nat, p: Policy)
    requires n <= |docs| && p in Accepted(docs, n)
    ensures p.name != ""
  {
    if p in Accepted(docs, n - 1) {
      AcceptedNamed(docs, n - 1, p);
    }
  }

  /** A distribution that mentions a name without clearing it rejects a document of that name. */
  lemma {:induction false} RejectedOne(docs: seq<Doc>, k: nat, name: string) returns (r: nat)
    requires Named(docs, k, name) && name != "" && !Clears(docs, name)
    ensures Named(docs, r, name) && !Accepts(docs, r)
  {
    if Accepts(docs, k) {
      r :| Named(docs, r, name) && r != k;
      assert k < r;
      assert Named(docs, k, docs[r].name);
    } else {
      r := k;
    }
  }

  /** A store fed a whole history holds what the history says. */
  method ApplyAll(history: seq<seq<Doc>>, generationOf: seq<Doc> -> string) returns (s: Store)
    ensures fresh(s) && s.policies == PoliciesAfter(history, |history|)
    ensures forall name, sub :: Pending(s.pending, name, sub) <==> Held(history, |history|, name, sub)
  {
    hide Held, Pending, Clears, Latches;
    s := new Store(generationOf);
    assert forall name, sub :: Pending(map[], name, sub) <==> Held(history, 0, name, sub) by {
      forall name, sub ensures Pending(map[], name, sub) <==> Held(history, 0, name, sub) {
        NothingPending(history, name, sub);
      }
    }
    for n := 0 to |history|
      invariant fresh(s) && s.policies == PoliciesAfter(history, n)
      invariant forall name, sub :: Pending(s.pending, name, sub) <==> Held(history, n, name, sub)
    {
      var _ := s.ApplyWire(history[n]);
      forall name, sub
        ensures Pending(s.pending, name, sub) <==> Held(history, n + 1, name, sub)
      {
        HeldStep(history, n, name, sub);
      }
    }
  }
}
