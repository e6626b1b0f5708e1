/**
 What a budget counter means over whole runs of the store: it is the money settled in its current window.
 */
module WindowSpend {
  import opened Ints
  import opened BudgetStore

  /** A counter's spend as anyone reading it at `t` sees it. */
  function View(m: Counters, k: string, t: int): int {
    if LiveAt(m, k, t) then m[k].spent else 0
  }

  // ---- one operation, seen by one key ----------------------------------------------------------------

  /** Touching a key leaves every other open counter as it was and opens at most its own, at zero. */
  lemma {:induction false} TouchAt(s: Store, cap: nat, cal: Calendar, t: int, key: string, w: Window, k: string)
    ensures var m := Touch(s, cap, cal, t, key, w).m;
            && (LiveAt(s.m, k, t) ==> k in m && m[k] == s.m[k])
            && (k != key && LiveAt(m, k, t) ==> LiveAt(s.m, k, t))
            && (k == key && k in m && !LiveAt(s.m, k, t) ==> m[k] == Win(0, WindowEnd(cal, t, w)))
  {
  }

  predicate Debits(op: Op, k: string) {
    op.Debit? && op.key == k
  }

  /** Only a debit of this very key changes what is seen of it. */
  lemma {:induction false} OpAt(s: Store, cap: nat, cal: Calendar, t: int, op: Op, k: string)
    ensures var m := StepStore(s, cap, cal, t, op).m;
            && (!Debits(op, k) ==> View(m, k, t) == View(s.m, k, t))
            && (Debits(op, k) && Refused(s, cap, cal, t, op) ==> View(m, k, t) == View(s.m, k, t) == 0)
            && (Debits(op, k) && !Refused(s, cap, cal, t, op) ==>
                  k in m && m[k].spent == Wrap64(View(s.m, k, t) + op.amount))
            && (LiveAt(m, k, t) && !LiveAt(s.m, k, t) ==> op.key == k && m[k].end == WindowEnd(cal, t, op.w))
            && (LiveAt(s.m, k, t) ==> LiveAt(m, k, t) && m[k].end == s.m[k].end)
  {
    hide Touch, Wrap64;
    if NeedsCounter(op) {
      TouchAt(s, cap, cal, t, op.key, op.w, k);
    }
  }

  /** Time closes windows, and so never raises what is seen of a counter that is not negative. */
  lemma {:induction false} ViewLater(m: Counters, k: string, t: int, t': int)
    requires t <= t' && 0 <= View(m, k, t)
    ensures 0 <= View(m, k, t') <= View(m, k, t)
  {
  }

  // ---- runs -----------------------------------------------------------------------------------------

  function RunStore(s: Store, cap: nat, cal: Calendar, ops: seq<Timed>): Store {
    if ops == [] then s
    else StepStore(RunStore(s, cap, cal, ops[..|ops| - 1]), cap, cal, ops[|ops| - 1].t, ops[|ops| - 1].op)
  }

  /** A calendar window: it ends after it starts, and every instant inside it has the same end. */
  ghost predicate CalendarLike(cal: Calendar, w: Window) {
    && (forall t :: t < WindowEnd(cal, t, w))
    && (forall t, t' :: t <= t' < WindowEnd(cal, t, w) ==> WindowEnd(cal, t', w) == WindowEnd(cal, t, w))
  }

  /** Money debited to `k` in the window that is open at `t`, refused debits excepted. */
  ghost function Settled(s: Store, cap: nat, cal: Calendar, ops: seq<Timed>, k: string, w: Window, t: int): int {
    if ops == [] then 0
    else
      var n := |ops| - 1;
      var before := RunStore(s, cap, cal, ops[..n]);
      Settled(s, cap, cal, ops[..n], k, w, t) +
      if Debits(ops[n].op, k) && !Refused(before, cap, cal, ops[n].t, ops[n].op)
         && WindowEnd(cal, ops[n].t, w) == WindowEnd(cal, t, w)
      then ops[n].op.amount else 0
  }

  /** Debits to `k` are not negative, add up to an int64, and every access to `k` uses the window `w`. */
  ghost predicate Orderly(ops: seq<Timed>, k: string, w: Window) {
    && (forall i :: 0 <= i < |ops| && ops[i].op.key == k ==> ops[i].op.w == w)
    && (forall i :: 0 <= i < |ops| && Debits(ops[i].op, k) ==> 0 <= ops[i].op.amount)
    && DebitTotal(ops, k) <= MAX_INT64
    && ClockRuns(ops)
  }

  ghost function DebitTotal(ops: seq<Timed>, k: string): int {
    if ops == [] then 0
    else DebitTotal(ops[..|ops| - 1], k) + if Debits(ops[|ops| - 1].op, k) then ops[|ops| - 1].op.amount else 0
  }

  lemma {:induction false} OrderlyPrefix(ops: seq<Timed>, k: string, w: Window)
    requires Orderly(ops, k, w) && ops != []
    ensures Orderly(ops[..|ops| - 1], k, w)
    ensures var last := ops[|ops| - 1].op;
            DebitTotal(ops[..|ops| - 1], k) + (if Debits(last, k) then last.amount else 0) <= MAX_INT64
  {
  }

  lemma {:induction false} SettledBounds(s: Store, cap: nat, cal: Calendar, ops: seq<Timed>, k: string, w: Window,
                                         t: int)
    requires Orderly(ops, k, w)
    ensures 0 <= Settled(s, cap, cal, ops, k, w, t) <= DebitTotal(ops, k)
  {
    hide RunStore, Refused;
    if ops != [] {
      OrderlyPrefix(ops, k, w);
      SettledBounds(s, cap, cal, ops[..|ops| - 1], k, w, t);
    }
  }

  /** Once the clock has passed into a new window, nothing has been settled in it yet. */
  lemma {:induction false} NewWindowIsEmpty(s: Store, cap: nat, cal: Calendar, ops: seq<Timed>, k: string,
                                            w: Window, t: int, t': int)
    requires CalendarLike(cal, w) && (forall i :: 0 <= i < |ops| ==> ops[i].t <= t)
    requires WindowEnd(cal, t, w) <= t'
    ensures Settled(s, cap, cal, ops, k, w, t') == 0
  {
    hide RunStore, Refused, WindowEnd;
    if ops != [] {
      var n := |ops| - 1;
      NewWindowIsEmpty(s, cap, cal, ops[..n], k, w, t, t');
    }
  }

  lemma {:induction false} SameWindowSameSum(s: Store, cap: nat, cal: Calendar, ops: seq<Timed>, k: string,
                                             w: Window, t: int, t': int)
    requires WindowEnd(cal, t, w) == WindowEnd(cal, t', w)
    ensures Settled(s, cap, cal, ops, k, w, t) == Settled(s, cap, cal, ops, k, w, t')
  {
    hide RunStore, Refused, WindowEnd;
    if ops != [] {
      SameWindowSameSum(s, cap, cal, ops[..|ops| - 1], k, w, t, t');
    }
  }

  /** The counter's entry at `t`: open exactly for the current window, holding its settled sum. */
  ghost predicate Holds(m: Counters, k: string, cal: Calendar, w: Window, t: int, sum: int) {
    && View(m, k, t) == sum
    && (LiveAt(m, k, t) ==> m[k].end == WindowEnd(cal, t, w))
  }

  lemma {:induction false} HoldsLater(m: Counters, k: string, cal: Calendar, w: Window, t: int, t': int, sum: int)
    requires CalendarLike(cal, w) && t <= t' && Holds(m, k, cal, w, t, sum)
    ensures if t' < WindowEnd(cal, t, w) then Holds(m, k, cal, w, t', sum) else Holds(m, k, cal, w, t', 0)
  {
    hide WindowEnd;
  }

  /** Moving the clock forward over a finished run keeps the counter equal to its window's sum. */
  lemma {:induction false} SumLater(s: Store, cap: nat, cal: Calendar, ops: seq<Timed>, k: string, w: Window,
                                    t: int, t': int)
    requires CalendarLike(cal, w) && t <= t' && (forall i :: 0 <= i < |ops| ==> ops[i].t <= t)
    requires Holds(RunStore(s, cap, cal, ops).m, k, cal, w, t, Settled(s, cap, cal, ops, k, w, t))
    ensures Holds(RunStore(s, cap, cal, ops).m, k, cal, w, t', Settled(s, cap, cal, ops, k, w, t'))
  {
    hide RunStore, Settled, Holds, WindowEnd;
    HoldsLater(RunStore(s, cap, cal, ops).m, k, cal, w, t, t', Settled(s, cap, cal, ops, k, w, t));
    if t' < WindowEnd(cal, t, w) {
      SameWindowSameSum(s, cap, cal, ops, k, w, t, t');
    } else {
      NewWindowIsEmpty(s, cap, cal, ops, k, w, t, t');
    }
  }

  /** One operation at `t` moves the counter by exactly what it adds to the window's sum. */
  lemma {:induction false} SumStep(s: Store, cap: nat, cal: Calendar, t: int, op: Op, k: string, w: Window, sum: int)
    requires CalendarLike(cal, w) && Holds(s.m, k, cal, w, t, sum) && (op.key == k ==> op.w == w)
    requires Debits(op, k) ==> 0 <= sum && 0 <= op.amount && sum + op.amount <= MAX_INT64
    ensures Holds(StepStore(s, cap, cal, t, op).m, k, cal, w, t,
                  sum + if Debits(op, k) && !Refused(s, cap, cal, t, op) then op.amount else 0)
  {
    hide StepStore, Refused, WindowEnd, Wrap64;
    OpAt(s, cap, cal, t, op, k);
    if Debits(op, k) {
      WrapSmall(sum + op.amount);
      if !Refused(s, cap, cal, t, op) {
        DebitOpens(s, cap, cal, t, op);
      }
    }
  }

  /** A debit that was not refused leaves its counter open. */
  lemma {:induction false} DebitOpens(s: Store, cap: nat, cal: Calendar, t: int, op: Op)
    requires op.Debit? && !Refused(s, cap, cal, t, op) && t < WindowEnd(cal, t, op.w)
    ensures LiveAt(StepStore(s, cap, cal, t, op).m, op.key, t)
  {
    hide Wrap64, WindowEnd;
  }

  lemma {:induction false} RunSums(cap: nat, cal: Calendar, ops: seq<Timed>, k: string, w: Window, t: int)
    requires CalendarLike(cal, w) && Orderly(ops, k, w) && (ops != [] ==> ops[|ops| - 1].t <= t)
    ensures var s := Store(map[], 0, 0);
            Holds(RunStore(s, cap, cal, ops).m, k, cal, w, t, Settled(s, cap, cal, ops, k, w, t))
  {
    hide StepStore, Refused, WindowEnd, CalendarLike, Orderly, Holds, DebitTotal;
    var s := Store(map[], 0, 0);
    if ops == [] {
      EmptyHolds(k, cal, w, t);
    } else {
      var n := |ops| - 1;
      var o := ops[n];
      OrderlyPrefix(ops, k, w);
      OrderlyAt(ops, k, w, n);
      RunSums(cap, cal, ops[..n], k, w, o.t);
      SettledBounds(s, cap, cal, ops[..n], k, w, o.t);
      SumStep(RunStore(s, cap, cal, ops[..n]), cap, cal, o.t, o.op, k, w, Settled(s, cap, cal, ops[..n], k, w, o.t));
      SumLater(s, cap, cal, ops, k, w, o.t, t);
    }
  }

  lemma {:induction false} EmptyHolds(k: string, cal: Calendar, w: Window, t: int)
    ensures Holds(map[], k, cal, w, t, 0)
  {
  }

  lemma {:induction false} OrderlyAt(ops: seq<Timed>, k: string, w: Window, n: nat)
    requires Orderly(ops, k, w) && n < |ops|
    ensures ops[n].op.key == k ==> ops[n].op.w == w
    ensures Debits(ops[n].op, k) ==> 0 <= ops[n].op.amount
    ensures n > 0 ==> ops[n - 1].t <= ops[n].t
    ensures n == |ops| - 1 ==> forall i :: 0 <= i < |ops| ==> ops[i].t <= ops[n].t
  {
  }

  /**
   Conservation: after any run of the store - any mixture of checks, reads and debits on any keys, with
   sweeps and refusals - a calendar counter reads exactly the money settled on its key in the window now
   open; nothing settled elsewhere or earlier is in it and nothing settled here is lost.
   */
  lemma {:induction false} CounterIsWindowSum(cap: nat, cal: Calendar, ops: seq<Timed>, k: string, w: Window, t: int)
    requires CalendarLike(cal, w) && Orderly(ops, k, w) && (ops != [] ==> ops[|ops| - 1].t <= t)
    ensures var s := Store(map[], 0, 0);
            && View(RunStore(s, cap, cal, ops).m, k, t) == Settled(s, cap, cal, ops, k, w, t)
            && StepAnswer(RunStore(s, cap, cal, ops), cap, cal, t, Spent(k, w)) == Amount(Settled(s, cap, cal, ops, k, w, t))
  {
    hide RunStore, Settled, CalendarLike, Orderly;
    RunSums(cap, cal, ops, k, w, t);
  }

  /** The accepted debits to `k` that fall on the calendar day of `t` in this zone. */
  ghost function DaySum(s: Store, cap: nat, cal: Calendar, ops: seq<Timed>, k: string, zone: string, t: int): int {
    if ops == [] then 0
    else
      var n := |ops| - 1;
      var before := RunStore(s, cap, cal, ops[..n]);
      DaySum(s, cap, cal, ops[..n], k, zone, t)
      + if Debits(ops[n].op, k) && !Refused(before, cap, cal, ops[n].t, ops[n].op)
           && cal.day(ops[n].t, zone) == cal.day(t, zone)
        then ops[n].op.amount else 0
  }

  /** Those in its calendar month. */
  ghost function MonthSum(s: Store, cap: nat, cal: Calendar, ops: seq<Timed>, k: string, zone: string, t: int): int {
    if ops == [] then 0
    else
      var n := |ops| - 1;
      var before := RunStore(s, cap, cal, ops[..n]);
      MonthSum(s, cap, cal, ops[..n], k, zone, t)
      + if Debits(ops[n].op, k) && !Refused(before, cap, cal, ops[n].t, ops[n].op)
           && cal.month(ops[n].t, zone) == cal.month(t, zone)
        then ops[n].op.amount else 0
  }

  lemma {:induction false} CalendarSums(s: Store, cap: nat, cal: Calendar, ops: seq<Timed>, k: string, zone: string,
                                        t: int)
    ensures Settled(s, cap, cal, ops, k, CalDay(zone), t) == DaySum(s, cap, cal, ops, k, zone, t)
    ensures Settled(s, cap, cal, ops, k, CalMonth(zone), t) == MonthSum(s, cap, cal, ops, k, zone, t)
  {
    hide RunStore, Refused;
    if ops != [] {
      CalendarSums(s, cap, cal, ops[..|ops| - 1], k, zone, t);
    }
  }

  /** A daily counter reads as the day's debits and a monthly one as the month's. */
  lemma {:induction false} CounterIsCalendarSum(cap: nat, cal: Calendar, ops: seq<Timed>, k: string, w: Window, t: int)
    requires CalendarLike(cal, w) && Orderly(ops, k, w) && (ops != [] ==> ops[|ops| - 1].t <= t)
    ensures var s := Store(map[], 0, 0);
            var read := StepAnswer(RunStore(s, cap, cal, ops), cap, cal, t, Spent(k, w));
            && (w.CalDay? ==> read == Amount(DaySum(s, cap, cal, ops, k, w.zone, t)))
            && (w.CalMonth? ==> read == Amount(MonthSum(s, cap, cal, ops, k, w.zone, t)))
  {
    hide RunStore, Settled, CalendarLike, Orderly, StepAnswer, DaySum, MonthSum;
    CounterIsWindowSum(cap, cal, ops, k, w, t);
    if !w.Rolling? {
      CalendarSums(Store(map[], 0, 0), cap, cal, ops, k, w.zone, t);
    }
  }

  /**
   A check compares what anyone sees of the counter, and the estimate on top, with the limit. It refuses for want of
   room only a key that has no counter while live ones fill the store.
   */
  lemma {:induction false} CheckReadsView(s: Store, cap: nat, cal: Calendar, t: int, k: string, estimate: int,
                                          limit: int, w: Window)
    requires |s.m| <= cap
    ensures var d := StepAnswer(s, cap, cal, t, Check(k, estimate, limit, w));
            d == Verdict(if limit <= 0 then Allow
                         else if k !in s.m && |Live(s.m, t)| >= cap then BlockCapacity
                         else if Wrap64(View(s.m, k, t) + estimate) > limit then Block else Allow)
  {
    hide Touch, Wrap64;
    if limit > 0 {
      TouchAt(s, cap, cal, t, k, w, k);
      TouchRefusal(s, cap, cal, t, k, w);
    }
  }
}
