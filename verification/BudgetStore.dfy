/**
 The in-memory budget store: windowed spend counters with an amortised sweep of expired entries and a
 capacity fail-safe, proved to answer exactly like an unbounded map of counters that never forgets.
 */
module BudgetStore {
  import opened Ints
  import opened Sums

  // Every SWEEP_EVERY-th access walks the map once and deletes what has expired.
  const SWEEP_EVERY: nat := 256

  datatype Window = Rolling(dur: int) | CalDay(zone: string) | CalMonth(zone: string)

  /** The calendar: the next midnight and the next first-of-month after an instant, per time zone. */
  datatype Calendar = Calendar(day: (int, string) -> int, month: (int, string) -> int)

  function WindowEnd(cal: Calendar, t: int, w: Window): int {
    match w
    case Rolling(dur) => t + dur
    case CalDay(zone) => cal.day(t, zone)
    case CalMonth(zone) => cal.month(t, zone)
  }

  datatype Win = Win(spent: int, end: int)

  type Counters = map<string, Win>

  datatype Decision = Allow | Block | BlockCapacity

  predicate LiveAt(m: Counters, k: string, t: int) {
    k in m && t < m[k].end
  }

  /** The counters whose window has not ended. */
  function Live(m: Counters, t: int): Counters {
    map k | k in m && t < m[k].end :: m[k]
  }

  // ---- the store, as values -------------------------------------------------------------------------

  datatype Store = Store(m: Counters, tick: nat, rejected: nat)

  function Tick(s: Store, t: int): Store {
    if s.tick + 1 >= SWEEP_EVERY then Store(Live(s.m, t), 0, s.rejected) else s.(tick := s.tick + 1)
  }

  /** Find or make the current counter of a key; the key is absent afterwards exactly when it was refused. */
  function Touch(s: Store, cap: nat, cal: Calendar, t: int, key: string, w: Window): Store {
    var u := Tick(s, t);
    var blank := Win(0, WindowEnd(cal, t, w));
    if LiveAt(u.m, key, t) then u
    else if key in u.m || |u.m| < cap then u.(m := u.m[key := blank])
    else
      var v := u.(m := Live(u.m, t));
      if |v.m| < cap then v.(m := v.m[key := blank]) else v.(rejected := v.rejected + 1)
  }

  datatype Op =
    | Check(key: string, estimate: int, limit: int, w: Window)
    | Debit(key: string, amount: int, w: Window)
    | Spent(key: string, w: Window)
    | ResetsAt(key: string, w: Window)

  datatype Answer = Verdict(d: Decision) | Done | Amount(micros: int) | At(time: int)

  predicate NeedsCounter(op: Op) {
    !(op.Check? && op.limit <= 0)
  }

  /** What an operation does with its counter once it has one. */
  function Apply(op: Op, b: Win): Win {
    if op.Debit? then b.(spent := Wrap64(b.spent + op.amount)) else b
  }

  function AnswerOf(op: Op, b: Win): Answer {
    match op
    case Check(_, estimate, limit, _) => Verdict(if Wrap64(b.spent + estimate) > limit then Block else Allow)
    case Debit(_, _, _) => Done
    case Spent(_, _) => Amount(b.spent)
    case ResetsAt(_, _) => At(b.end)
  }

  function RefusedAnswer(op: Op, cal: Calendar, t: int): Answer {
    match op
    case Check(_, _, _, _) => Verdict(BlockCapacity)
    case Debit(_, _, _) => Done
    case Spent(_, _) => Amount(0)
    case ResetsAt(_, w) => At(WindowEnd(cal, t, w))
  }

  predicate Refused(s: Store, cap: nat, cal: Calendar, t: int, op: Op) {
    NeedsCounter(op) && op.key !in Touch(s, cap, cal, t, op.key, op.w).m
  }

  function StepStore(s: Store, cap: nat, cal: Calendar, t: int, op: Op): Store {
    if !NeedsCounter(op) then s
    else
      var u := Touch(s, cap, cal, t, op.key, op.w);
      if op.key in u.m then u.(m := u.m[op.key := Apply(op, u.m[op.key])]) else u
  }

  function StepAnswer(s: Store, cap: nat, cal: Calendar, t: int, op: Op): Answer {
    if !NeedsCounter(op) then Verdict(Allow)
    else
      var u := Touch(s, cap, cal, t, op.key, op.w);
      if op.key in u.m then AnswerOf(op, u.m[op.key]) else RefusedAnswer(op, cal, t)
  }

  // ---- the reference: unbounded, never sweeps, never refuses -----------------------------------------

  function RefTouch(ref: Counters, cal: Calendar, t: int, key: string, w: Window): Counters {
    if LiveAt(ref, key, t) then ref else ref[key := Win(0, WindowEnd(cal, t, w))]
  }

  function RefStep(ref: Counters, cal: Calendar, t: int, op: Op): Counters {
    if !NeedsCounter(op) then ref
    else
      var open := RefTouch(ref, cal, t, op.key, op.w);
      open[op.key := Apply(op, open[op.key])]
  }

  function RefAnswer(ref: Counters, cal: Calendar, t: int, op: Op): Answer {
    if !NeedsCounter(op) then Verdict(Allow)
    else AnswerOf(op, RefTouch(ref, cal, t, op.key, op.w)[op.key])
  }

  /** Store and reference agree on every counter whose window is still open. */
  ghost predicate Agree(m: Counters, ref: Counters, t: int) {
    && (forall k :: k in m && t < m[k].end ==> k in ref && ref[k] == m[k])
    && (forall k :: k in ref && t < ref[k].end ==> k in m && m[k] == ref[k])
  }

  lemma {:induction false} LiveSize(m: Counters, t: int)
    ensures |Live(m, t)| <= |m|
    ensures (exists k :: k in m && !(t < m[k].end)) ==> |Live(m, t)| < |m|
  {
    var live := Live(m, t);
    assert live.Keys <= m.Keys;
    SubsetSize(live.Keys, m.Keys);
    assert |live| == |live.Keys| && |m| == |m.Keys|;
    if k :| k in m && !(t < m[k].end) {
      assert live.Keys <= m.Keys - {k};
      SubsetSize(live.Keys, m.Keys - {k});
    }
  }

  lemma {:induction false} AgreeSameSize(m: Counters, ref: Counters, t: int)
    requires Agree(m, ref, t)
    ensures Live(m, t) == Live(ref, t)
  {
  }

  /** The map never outgrows its capacity. */
  lemma {:induction false} TouchBounded(s: Store, cap: nat, cal: Calendar, t: int, key: string, w: Window)
    requires |s.m| <= cap
    ensures |Touch(s, cap, cal, t, key, w).m| <= cap
  {
    LiveSize(s.m, t);
    var u := Tick(s, t);
    LiveSize(u.m, t);
    var blank := Win(0, WindowEnd(cal, t, w));
    SizeUpdate(u.m, key, blank);
    SizeUpdate(Live(u.m, t), key, blank);
  }

  /**
   A touch is refused exactly when the key has no entry at all and every slot holds a live counter. In
   particular a key still in the map is always honoured, even when this very call's sweep deletes it.
   */
  lemma {:induction false} TouchRefusal(s: Store, cap: nat, cal: Calendar, t: int, key: string, w: Window)
    requires |s.m| <= cap
    ensures key !in Touch(s, cap, cal, t, key, w).m <==> key !in s.m && |Live(s.m, t)| >= cap
  {
    LiveSize(s.m, t);
    var u := Tick(s, t);
    LiveSize(u.m, t);
    assert Live(u.m, t) == Live(s.m, t);
  }

  /** Touching changes no open counter, apart from opening the one it was asked for. */
  lemma {:induction false} TouchAgrees(s: Store, ref: Counters, cap: nat, cal: Calendar, t: int, key: string, w: Window)
    requires Agree(s.m, ref, t)
    ensures var m := Touch(s, cap, cal, t, key, w).m;
            if key in m then Agree(m, RefTouch(ref, cal, t, key, w), t) && m[key] == RefTouch(ref, cal, t, key, w)[key]
            else Agree(m, ref, t) && !LiveAt(ref, key, t)
  {
    hide Agree, Live, LiveAt, Tick;
    var u := Tick(s, t);
    TickAgrees(s, ref, t);
    SweepAgrees(u.m, ref, t);
    AgreeAt(u.m, ref, t, key);
    var blank := Win(0, WindowEnd(cal, t, w));
    UpdateAgrees(u.m, ref, t, key, blank);
    UpdateAgrees(Live(u.m, t), ref, t, key, blank);
    var v := Live(u.m, t);
    if key !in u.m && |u.m| >= cap && |v| >= cap {
      NoneLeft(u.m, t, key);
    }
  }

  lemma {:induction false} NoneLeft(m: Counters, t: int, key: string)
    requires key !in m
    ensures key !in Live(m, t)
  {
  }

  lemma {:induction false} AgreeAt(m: Counters, ref: Counters, t: int, key: string)
    requires Agree(m, ref, t)
    ensures LiveAt(m, key, t) <==> LiveAt(ref, key, t)
    ensures LiveAt(m, key, t) ==> key in m && key in ref && m[key] == ref[key]
  {
  }

  lemma {:induction false} SweepAgrees(m: Counters, ref: Counters, t: int)
    requires Agree(m, ref, t)
    ensures Agree(Live(m, t), ref, t)
  {
  }

  lemma {:induction false} TickAgrees(s: Store, ref: Counters, t: int)
    requires Agree(s.m, ref, t)
    ensures Agree(Tick(s, t).m, ref, t)
  {
    hide Agree;
    SweepAgrees(s.m, ref, t);
  }

  // ---- runs -----------------------------------------------------------------------------------------

  datatype Timed = Timed(t: int, op: Op)

  datatype Both = Both(s: Store, ref: Counters)

  /** Both stores through the same run; the reference skips what the real store refused. */
  ghost function Run(cap: nat, cal: Calendar, ops: seq<Timed>): Both {
    if ops == [] then Both(Store(map[], 0, 0), map[])
    else
      var before, o := Run(cap, cal, ops[..|ops| - 1]), ops[|ops| - 1];
      Both(StepStore(before.s, cap, cal, o.t, o.op),
           if Refused(before.s, cap, cal, o.t, o.op) then before.ref else RefStep(before.ref, cal, o.t, o.op))
  }

  predicate ClockRuns(ops: seq<Timed>) {
    forall i, j :: 0 <= i < j < |ops| ==> ops[i].t <= ops[j].t
  }

  lemma {:induction false} AgreeLater(m: Counters, ref: Counters, t: int, t': int)
    requires Agree(m, ref, t) && t <= t'
    ensures Agree(m, ref, t')
  {
  }

  lemma {:induction false} UpdateAgrees(m: Counters, ref: Counters, t: int, key: string, b: Win)
    requires Agree(m, ref, t)
    ensures Agree(m[key := b], ref[key := b], t)
  {
  }

  lemma {:induction false} StepAgrees(s: Store, ref: Counters, cap: nat, cal: Calendar, t: int, op: Op)
    requires Agree(s.m, ref, t) && |s.m| <= cap
    ensures |StepStore(s, cap, cal, t, op).m| <= cap
    ensures Agree(StepStore(s, cap, cal, t, op).m, if Refused(s, cap, cal, t, op) then ref else RefStep(ref, cal, t, op), t)
    ensures if Refused(s, cap, cal, t, op)
            then StepAnswer(s, cap, cal, t, op) == (if op.Check? then Verdict(BlockCapacity) else RefAnswer(ref, cal, t, op))
            else StepAnswer(s, cap, cal, t, op) == RefAnswer(ref, cal, t, op)
    ensures Refused(s, cap, cal, t, op) <==> NeedsCounter(op) && op.key !in s.m && |Live(ref, t)| >= cap
  {
    hide Touch, Agree, Wrap64, Live;
    if NeedsCounter(op) {
      TouchAgrees(s, ref, cap, cal, t, op.key, op.w);
      TouchBounded(s, cap, cal, t, op.key, op.w);
      TouchRefusal(s, cap, cal, t, op.key, op.w);
      AgreeSameSize(s.m, ref, t);
      var m := Touch(s, cap, cal, t, op.key, op.w).m;
      if op.key in m {
        UpdateAgrees(m, RefTouch(ref, cal, t, op.key, op.w), t, op.key, Apply(op, m[op.key]));
        SizeUpdate(m, op.key, Apply(op, m[op.key]));
      }
    }
  }

  lemma {:induction false} RunAgrees(cap: nat, cal: Calendar, ops: seq<Timed>)
    requires ClockRuns(ops)
    ensures var b := Run(cap, cal, ops);
            |b.s.m| <= cap && (ops != [] ==> Agree(b.s.m, b.ref, ops[|ops| - 1].t)) && (ops == [] ==> b.s.m == b.ref)
  {
    if ops != [] {
      var n := |ops| - 1;
      RunAgrees(cap, cal, ops[..n]);
      var before := Run(cap, cal, ops[..n]);
      if n > 0 {
        AgreeLater(before.s.m, before.ref, ops[n - 1].t, ops[n].t);
      }
      StepAgrees(before.s, before.ref, cap, cal, ops[n].t, ops[n].op);
    }
  }

  /**
   The store refines the unbounded reference. After any run, under a clock that does not go backwards,
   the next operation gets the reference's own answer - unless it is a check on a key that has no entry
   while as many counters are open as the store may hold, which is refused as BlockCapacity and leaves
   no trace. The map stays within its capacity and every open counter is still there, unaltered.
   */
  lemma {:induction false} StoreRefinesReference(cap: nat, cal: Calendar, ops: seq<Timed>, t: int, op: Op)
    requires ClockRuns(ops) && (ops != [] ==> ops[|ops| - 1].t <= t)
    ensures var b := Run(cap, cal, ops);
            var refused := NeedsCounter(op) && op.key !in b.s.m && |Live(b.ref, t)| >= cap;
            && |b.s.m| <= cap
            && Live(b.s.m, t) == Live(b.ref, t)
            && StepAnswer(b.s, cap, cal, t, op)
               == (if refused && op.Check? then Verdict(BlockCapacity) else RefAnswer(b.ref, cal, t, op))
            && (op.key in b.s.m ==> !Refused(b.s, cap, cal, t, op))
  {
    RunAgrees(cap, cal, ops);
    var b := Run(cap, cal, ops);
    if ops != [] {
      AgreeLater(b.s.m, b.ref, ops[|ops| - 1].t, t);
    }
    StepAgrees(b.s, b.ref, cap, cal, t, op);
    AgreeSameSize(b.s.m, b.ref, t);
  }

  // ---- the store itself -----------------------------------------------------------------------------

  class Memory {
    var m: Counters
    var sweepTick: nat
    var rejected: nat
    const maxEntries: nat
    const cal: Calendar

    ghost predicate Valid()
      reads this
    {
      |m| <= maxEntries
    }

    function Contents(): Store
      reads this
    {
      Store(m, sweepTick, rejected)
    }

    constructor (maxEntries: nat, cal: Calendar)
      ensures Valid() && Contents() == Store(map[], 0, 0)
      ensures this.maxEntries == maxEntries && this.cal == cal
    {
      m, sweepTick, rejected := map[], 0, 0;
      this.maxEntries, this.cal := maxEntries, cal;
    }

    method SweepExpired(t: int)
      modifies this`m
      ensures m == Live(old(m), t)
    {
      ghost var was := m;
      var todo := m.Keys;
      while todo != {}
        invariant todo <= was.Keys && m.Keys <= was.Keys && todo <= m.Keys
        invariant forall k :: k in m ==> m[k] == was[k]
        invariant forall k :: k in was && k !in todo ==> (k in m <==> t < was[k].end)
      {
        var k :| k in todo;
        if !(t < m[k].end) {
          m := m - {k};
        }
        todo := todo - {k};
      }
    }

    /** The current counter of a key, created or rolled as needed; absent only at capacity. */
    method Current(key: string, w: Window, t: int) returns (ok: bool)
      requires Valid()
      modifies this
      ensures Valid()
      ensures Contents() == Touch(old(Contents()), maxEntries, cal, t, key, w)
      ensures ok <==> key in m
    {
      TouchBounded(Contents(), maxEntries, cal, t, key, w);
      sweepTick := sweepTick + 1;
      if sweepTick >= SWEEP_EVERY {
        sweepTick := 0;
        SweepExpired(t);
      }
      if key in m && t < m[key].end {
        return true;
      }
      if key !in m && |m| >= maxEntries {
        SweepExpired(t);
        if |m| >= maxEntries {
          rejected := rejected + 1;
          return false;
        }
      }
      m := m[key := Win(0, WindowEnd(cal, t, w))];
      ok := true;
    }

    method CheckLimit(key: string, estimate: int, limit: int, w: Window, t: int) returns (d: Decision)
      requires Valid()
      modifies this
      ensures Valid()
      ensures Contents() == StepStore(old(Contents()), maxEntries, cal, t, Check(key, estimate, limit, w))
      ensures Verdict(d) == StepAnswer(old(Contents()), maxEntries, cal, t, Check(key, estimate, limit, w))
    {
      if limit <= 0 {
        return Allow;
      }
      var ok := Current(key, w, t);
      if !ok {
        return BlockCapacity;
      }
      assert m[key := m[key]] == m;
      if Wrap64(m[key].spent + estimate) > limit {
        return Block;
      }
      d := Allow;
    }

    method DebitSpend(key: string, amount: int, w: Window, t: int)
      requires Valid()
      modifies this
      ensures Valid()
      ensures Contents() == StepStore(old(Contents()), maxEntries, cal, t, Debit(key, amount, w))
    {
      var ok := Current(key, w, t);
      if ok {
        SizeUpdate(m, key, m[key].(spent := Wrap64(m[key].spent + amount)));
        m := m[key := m[key].(spent := Wrap64(m[key].spent + amount))];
      }
    }

    method SpentOf(key: string, w: Window, t: int) returns (micros: int)
      requires Valid()
      modifies this
      ensures Valid()
      ensures Contents() == StepStore(old(Contents()), maxEntries, cal, t, Spent(key, w))
      ensures Amount(micros) == StepAnswer(old(Contents()), maxEntries, cal, t, Spent(key, w))
    {
      var ok := Current(key, w, t);
      if !ok {
        return 0;
      }
      assert m[key := m[key]] == m;
      micros := m[key].spent;
    }

    method ResetTime(key: string, w: Window, t: int) returns (at: int)
      requires Valid()
      modifies this
      ensures Valid()
      ensures Contents() == StepStore(old(Contents()), maxEntries, cal, t, ResetsAt(key, w))
      ensures At(at) == StepAnswer(old(Contents()), maxEntries, cal, t, ResetsAt(key, w))
    {
      var ok := Current(key, w, t);
      if !ok {
        return WindowEnd(cal, t, w);
      }
      assert m[key := m[key]] == m;
      at := m[key].end;
    }
  }
}
