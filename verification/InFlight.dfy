/**
 Concurrent admissions and settlements on one blocking budget counter. Requests are admitted on what has
 been recorded so far and settle later, in any interleaving with each other and with everything else the
 store is asked; the recorded spend can pass the limit only by what was in flight.
 */
module InFlight {
  import opened Ints
  import opened Sums
  import opened BudgetStore
  import opened WindowSpend

  /** A store operation, or a request that leaves without ever settling. */
  datatype Move = Do(op: Op) | Leave

  datatype Timeline = Timeline(t: int, move: Move)

  /** The budget under watch: its counter, its blocking limit, the dearest request and the most in flight. */
  datatype Budget = Budget(key: string, w: Window, limit: int, dearest: int, most: nat)

  datatype Flight = Flight(s: Store, flying: int)

  predicate Admission(b: Budget, op: Op) {
    op == Check(b.key, 0, b.limit, b.w)
  }

  /** A request is in flight from the check that let it through until its debit, or until it leaves. */
  function Step(f: Flight, b: Budget, cap: nat, cal: Calendar, m: Timeline): Flight {
    match m.move
    case Leave => f.(flying := f.flying - 1)
    case Do(op) =>
      Flight(StepStore(f.s, cap, cal, m.t, op),
             f.flying + (if Admission(b, op) && StepAnswer(f.s, cap, cal, m.t, op) == Verdict(Allow) then 1 else 0)
                      - (if Debits(op, b.key) then 1 else 0))
  }

  function Run(b: Budget, cap: nat, cal: Calendar, ms: seq<Timeline>): Flight {
    if ms == [] then Flight(Store(map[], 0, 0), 0)
    else Step(Run(b, cap, cal, ms[..|ms| - 1]), b, cap, cal, ms[|ms| - 1])
  }

  /** Only a request in flight settles or leaves, costs are bounded, and no more than `most` are in flight. */
  predicate Disciplined(f: Flight, b: Budget, cap: nat, cal: Calendar, m: Timeline) {
    && (m.move.Leave? ==> 0 < f.flying)
    && (m.move.Do? && Debits(m.move.op, b.key) ==> 0 < f.flying && 0 <= m.move.op.amount <= b.dearest)
    && Step(f, b, cap, cal, m).flying <= b.most
  }

  ghost predicate Orderly(b: Budget, cap: nat, cal: Calendar, ms: seq<Timeline>) {
    && (forall i :: 0 <= i < |ms| ==> Disciplined(Run(b, cap, cal, ms[..i]), b, cap, cal, ms[i]))
    && (forall i, j :: 0 <= i < j < |ms| ==> ms[i].t <= ms[j].t)
  }

  /** Recorded spend, with every request in flight priced at the dearest. */
  ghost predicate Inv(f: Flight, b: Budget, t: int) {
    && 0 <= f.flying <= b.most && 0 <= View(f.s.m, b.key, t)
    && View(f.s.m, b.key, t) + Times(b.dearest, f.flying) <= b.limit + Times(b.dearest, b.most)
  }

  lemma {:induction false} InvLater(f: Flight, b: Budget, t: int, t': int)
    requires Inv(f, b, t) && t <= t'
    ensures Inv(f, b, t')
  {
    hide View;
    ViewLater(f.s.m, b.key, t, t');
  }

  /** An admission reads the spend it is checked against: at the limit it still lets through, past it not. */
  lemma {:induction false} AdmissionReads(s: Store, cap: nat, cal: Calendar, t: int, b: Budget)
    requires 0 < b.limit && 0 <= View(s.m, b.key, t) <= MAX_INT64
    requires StepAnswer(s, cap, cal, t, Check(b.key, 0, b.limit, b.w)) == Verdict(Allow)
    ensures View(s.m, b.key, t) <= b.limit
  {
    hide Touch, Wrap64;
    TouchAt(s, cap, cal, t, b.key, b.w, b.key);
    WrapSmall(View(s.m, b.key, t));
  }

  lemma {:induction false} StepKeepsInv(f: Flight, b: Budget, cap: nat, cal: Calendar, m: Timeline)
    requires Inv(f, b, m.t) && Disciplined(f, b, cap, cal, m)
    requires 0 < b.limit && 0 <= b.dearest && b.limit + Times(b.dearest, b.most) <= MAX_INT64
    ensures Inv(Step(f, b, cap, cal, m), b, m.t)
  {
    hide StepStore, StepAnswer, Wrap64, Refused;
    TimesGrow(b.dearest, f.flying, b.most);
    if m.move.Do? {
      var op := m.move.op;
      OpAt(f.s, cap, cal, m.t, op, b.key);
      if Admission(b, op) && StepAnswer(f.s, cap, cal, m.t, op) == Verdict(Allow) {
        AdmissionReads(f.s, cap, cal, m.t, b);
        TimesGrow(b.dearest, f.flying + 1, b.most);
      }
      if Debits(op, b.key) {
        assert Times(b.dearest, f.flying) == b.dearest + Times(b.dearest, f.flying - 1);
        TimesGrow(b.dearest, f.flying - 1, b.most);
        WrapSmall(View(f.s.m, b.key, m.t) + op.amount);
      }
    } else {
      assert Times(b.dearest, f.flying) == b.dearest + Times(b.dearest, f.flying - 1);
    }
  }

  lemma {:induction false} RunKeepsInv(b: Budget, cap: nat, cal: Calendar, ms: seq<Timeline>, t: int)
    requires Orderly(b, cap, cal, ms) && (ms != [] ==> ms[|ms| - 1].t <= t)
    requires 0 < b.limit && 0 <= b.dearest && b.limit + Times(b.dearest, b.most) <= MAX_INT64
    ensures Inv(Run(b, cap, cal, ms), b, t)
  {
    hide Step, Disciplined;
    if ms == [] {
      TimesGrow(b.dearest, 0, b.most);
    } else {
      var n := |ms| - 1;
      assert forall i :: 0 <= i < n ==> ms[..n][..i] == ms[..i];
      RunKeepsInv(b, cap, cal, ms[..n], ms[n].t);
      StepKeepsInv(Run(b, cap, cal, ms[..n]), b, cap, cal, ms[n]);
      InvLater(Run(b, cap, cal, ms), b, ms[n].t, t);
    }
  }

  /**
   The overshoot bound: with at most `most` requests in flight, each costing at most `dearest`, the spend
   recorded against a blocking limit never passes the limit by more than their product - whatever the
   interleaving, and across window rollovers, sweeps and capacity refusals.
   */
  lemma {:induction false} OvershootIsInFlight(b: Budget, cap: nat, cal: Calendar, ms: seq<Timeline>, t: int)
    requires Orderly(b, cap, cal, ms) && (ms != [] ==> ms[|ms| - 1].t <= t)
    requires 0 < b.limit && 0 <= b.dearest && b.limit + b.most * b.dearest <= MAX_INT64
    ensures View(Run(b, cap, cal, ms).s.m, b.key, t) <= b.limit + b.most * b.dearest
  {
    hide Orderly, Run, View;
    TimesIsProduct(b.dearest, b.most);
    RunKeepsInv(b, cap, cal, ms, t);
    TimesGrow(b.dearest, Run(b, cap, cal, ms).flying, b.most);
  }
}
