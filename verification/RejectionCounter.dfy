/**
 The lock-free report of the budget store's cumulative rejections. Any number of calls run at once, each
 a loop of load, compare-and-swap and, for the winner, an addition to the exported counter.
 */
module RejectionCounter {
  import opened Sums

  datatype Phase = Start | Loaded(value: int) | Won(diff: int) | Done

  /** A call in progress with the total it reports, and the value its last attempt had loaded. */
  datatype Call = Call(n: int, phase: Phase, lastLoad: int)

  datatype State = State(seen: int, counter: int, calls: map<nat, Call>)

  /** A new call begins, or one call takes its next atomic step. */
  datatype Event = Begin(id: nat, n: int) | Move(id: nat)

  function MoveCall(s: State, id: nat): State
    requires id in s.calls
  {
    var c := s.calls[id];
    match c.phase
    case Start =>
      if c.n <= s.seen then s.(calls := s.calls[id := c.(phase := Done)])
      else s.(calls := s.calls[id := c.(phase := Loaded(s.seen), lastLoad := s.seen)])
    case Loaded(value) =>
      if s.seen == value then s.(seen := c.n, calls := s.calls[id := c.(phase := Won(c.n - value))])
      else s.(calls := s.calls[id := c.(phase := Start)])
    case Won(diff) => s.(counter := s.counter + diff, calls := s.calls[id := c.(phase := Done)])
    case Done => s
  }

  function Step(s: State, e: Event): State {
    match e
    case Begin(id, n) => if id in s.calls then s else s.(calls := s.calls[id := Call(n, Start, -1)])
    case Move(id) => if id in s.calls then MoveCall(s, id) else s
  }

  function Run(es: seq<Event>): State {
    if es == [] then State(0, 0, map[]) else Step(Run(es[..|es| - 1]), es[|es| - 1])
  }

  /** Differences won by a swap but not yet added. */
  ghost function Owed(calls: map<nat, Call>): map<nat, int> {
    map id | id in calls :: if calls[id].phase.Won? then calls[id].phase.diff else 0
  }

  predicate CallFits(s: State, c: Call) {
    && c.lastLoad <= s.seen
    && (c.phase.Loaded? ==> c.phase.value == c.lastLoad < c.n && 0 <= c.lastLoad)
    && (c.phase.Won? ==> c.n <= s.seen && 0 < c.phase.diff)
    && (c.phase.Done? ==> c.n <= s.seen)
    && (c.phase.Start? && c.lastLoad >= 0 ==> c.lastLoad < s.seen && c.lastLoad < c.n)
  }

  /** Added plus owed is what has been seen, and what has been seen was reported by somebody. */
  ghost predicate Inv(s: State) {
    && 0 <= s.seen
    && s.counter + Total(Owed(s.calls)) == s.seen
    && (forall id :: id in s.calls ==> CallFits(s, s.calls[id]))
    && (s.seen == 0 || exists id :: id in s.calls && s.calls[id].n == s.seen)
  }

  lemma {:induction false} OwedUpdate(calls: map<nat, Call>, id: nat, c: Call)
    ensures Total(Owed(calls[id := c]))
            == Total(Owed(calls)) - (if id in calls && calls[id].phase.Won? then calls[id].phase.diff else 0)
               + (if c.phase.Won? then c.phase.diff else 0)
  {
    var v := if c.phase.Won? then c.phase.diff else 0;
    assert Owed(calls[id := c]) == Owed(calls)[id := v];
    TotalUpdate(Owed(calls), id, v);
  }

  lemma {:induction false} SomeoneReported(s: State, s': State, id: nat)
    requires s.seen == 0 || exists j :: j in s.calls && s.calls[j].n == s.seen
    requires id in s'.calls && s'.calls == s.calls[id := s'.calls[id]]
    requires id in s.calls ==> s'.calls[id].n == s.calls[id].n
    requires s'.seen == s.seen || s'.seen == s'.calls[id].n
    ensures s'.seen == 0 || exists j :: j in s'.calls && s'.calls[j].n == s'.seen
  {
    if s'.seen != 0 {
      if s'.seen == s'.calls[id].n {
        assert id in s'.calls;
      } else {
        var j :| j in s.calls && s.calls[j].n == s.seen;
        assert j in s'.calls && s'.calls[j].n == s'.seen;
      }
    }
  }

  lemma {:induction false} StepKeepsInv(s: State, e: Event)
    requires Inv(s)
    ensures Inv(Step(s, e))
    ensures s.seen <= Step(s, e).seen
  {
    hide Owed;
    var s' := Step(s, e);
    if s' != s {
      var c := s'.calls[e.id];
      OwedUpdate(s.calls, e.id, c);
      SomeoneReported(s, s', e.id);
    }
  }

  lemma {:induction false} RunKeepsInv(es: seq<Event>)
    ensures Inv(Run(es))
  {
    if es == [] {
      assert Owed(map[]) == map[];
    } else {
      hide Step, Owed;
      RunKeepsInv(es[..|es| - 1]);
      StepKeepsInv(Run(es[..|es| - 1]), es[|es| - 1]);
    }
  }

  lemma {:induction false} NothingOwed(calls: map<nat, Call>)
    requires forall id :: id in calls ==> calls[id].phase.Done?
    ensures Total(Owed(calls)) == 0
  {
    var zero := Owed(calls);
    TotalZero(zero);
  }

  lemma {:induction false} TotalZero(m: map<nat, int>)
    requires forall k :: k in m ==> m[k] == 0
    ensures Total(m) == 0
    decreases |m|
  {
    if m != map[] {
      var k :| k in m;
      TotalRemove(m, k);
      TotalZero(m - {k});
    }
  }

  /**
   Telescoping under every interleaving: the exported counter and the differences still owed always add
   up to the last total seen, and once no call is in progress the counter is the largest total any call
   ever reported.
   */
  lemma {:induction false} CounterTelescopes(es: seq<Event>)
    ensures var s := Run(es);
            && s.counter + Total(Owed(s.calls)) == s.seen
            && ((forall id :: id in s.calls ==> s.calls[id].phase.Done?) ==>
                  && (forall id :: id in s.calls ==> s.calls[id].n <= s.counter)
                  && (s.counter == 0 || exists id :: id in s.calls && s.calls[id].n == s.counter))
  {
    hide Run, Owed;
    RunKeepsInv(es);
    var s := Run(es);
    if forall id :: id in s.calls ==> s.calls[id].phase.Done? {
      NothingOwed(s.calls);
    }
  }

  /** How far a call's last loaded value is from its own total; a retry can only start over with less. */
  function Distance(c: Call): int {
    c.n - c.lastLoad
  }

  /**
   The retry loop ends: a failed swap means the seen value has grown past what was loaded, so the next
   load either finishes the call or brings it strictly closer to its total, which it can never reach.
   */
  lemma {:induction false} RetryMakesProgress(es: seq<Event>, id: nat)
    requires id in Run(es).calls && Run(es).calls[id].phase.Start? && Run(es).calls[id].lastLoad >= 0
    ensures var before := Run(es).calls[id];
            var after := MoveCall(Run(es), id).calls[id];
            after.phase.Done? || (after.phase.Loaded? && 0 < Distance(after) < Distance(before))
  {
    hide Run, Owed;
    RunKeepsInv(es);
  }
}
