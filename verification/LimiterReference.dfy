/**
 The limiter against its reference: an unbounded limiter that never sweeps and never refuses. Reclaiming
 an entry is invisible to every later answer unless a negative true-up then falls on a key the limiter no
 longer holds; the lemmas at the end show that such a true-up shows at once, if there is room for the key.
 */
module LimiterReference {
  import opened Ints
  import opened Sums
  import opened RateLimiter

  /** A key's fixed rate and burst. */
  type Limits = string -> (int, int)

  predicate Conforming(op: Op, limits: Limits) {
    && (op.AllowRate? && 0 < op.rate ==> (op.rate, op.burst) == limits(op.key))
    && (op.AdjustRate? ==> op.burst == limits(op.key).1)
    && (op.RateUsed? && 0 < op.rate ==> (op.rate, op.burst) == limits(op.key))
  }

  // ---- the reference --------------------------------------------------------------------------------

  datatype Ref = Ref(buckets: Buckets, quotas: Quotas)

  function RefReady(m: Buckets, key: string, rate: int, burst: int, t: int): Bucket {
    Refilled(if key in m then m[key] else Bucket(burst * SCALE, t, rate, burst), t, rate, burst)
  }

  function RefCurrent(m: Quotas, key: string, window: int, t: int): Quota {
    if key in m && t < m[key].end then m[key] else Quota(0, t + window)
  }

  function RefStep(r: Ref, t: int, op: Op): Ref {
    match op
    case AllowRate(key, cost, rate, burst) =>
      if rate <= 0 then r
      else r.(buckets := r.buckets[key := Charged(RefReady(r.buckets, key, rate, burst, t), cost)])
    case AdjustRate(key, delta, burst) =>
      if key in r.buckets then r.(buckets := r.buckets[key := Adjusted(r.buckets[key], delta, burst)]) else r
    case RateUsed(_, _, _) => r
    case CheckQuota(key, _, limit, window) =>
      if limit <= 0 then r else r.(quotas := r.quotas[key := RefCurrent(r.quotas, key, window, t)])
    case DebitQuota(key, actual, window) =>
      var q := RefCurrent(r.quotas, key, window, t);
      r.(quotas := r.quotas[key := q.(used := Wrap64(q.used + actual))])
    case QuotaUsed(_) => r
  }

  function RefAnswer(r: Ref, t: int, op: Op): Answer {
    match op
    case AllowRate(key, cost, rate, burst) =>
      if rate <= 0 || RefReady(r.buckets, key, rate, burst, t).tokens >= cost * SCALE then Yes else No
    case AdjustRate(_, _, _) => Done
    case RateUsed(key, rate, burst) =>
      Tokens(if rate <= 0 || key !in r.buckets then 0 else UsedTokens(Level(r.buckets, key, rate, burst, t), burst))
    case CheckQuota(key, estimate, limit, window) =>
      if limit <= 0 || !(Wrap64(RefCurrent(r.quotas, key, window, t).used + estimate) > limit) then Yes else No
    case DebitQuota(_, _, _) => Done
    case QuotaUsed(key) => Tokens(if key in r.quotas && t < r.quotas[key].end then r.quotas[key].used else 0)
  }

  // ---- refusal --------------------------------------------------------------------------------------

  predicate Refused(s: Store, cap: nat, t: int, op: Op) {
    match op
    case AllowRate(key, _, rate, burst) => rate > 0 && !Ready(s, cap, key, rate, burst, t).1
    case CheckQuota(key, _, limit, window) => limit > 0 && !Current(s, cap, key, window, t).1
    case DebitQuota(key, _, window) => !Current(s, cap, key, window, t).1
    case _ => false
  }

  lemma {:induction false} KeptSize(s: Store, t: int)
    ensures |KeptBuckets(s.buckets, t)| <= |s.buckets| && |KeptQuotas(s.quotas, t)| <= |s.quotas|
    ensures KeptBuckets(s.buckets, t) != s.buckets ==> |KeptBuckets(s.buckets, t)| < |s.buckets|
    ensures KeptQuotas(s.quotas, t) != s.quotas ==> |KeptQuotas(s.quotas, t)| < |s.quotas|
  {
    var kb, kq := KeptBuckets(s.buckets, t), KeptQuotas(s.quotas, t);
    SubsetSize(kb.Keys, s.buckets.Keys);
    SubsetSize(kq.Keys, s.quotas.Keys);
    assert |kb| == |kb.Keys| && |kq| == |kq.Keys| && |s.buckets| == |s.buckets.Keys| && |s.quotas| == |s.quotas.Keys|;
    if kb.Keys == s.buckets.Keys {
      assert kb == s.buckets;
    }
    if kq.Keys == s.quotas.Keys {
      assert kq == s.quotas;
    }
  }

  /** The sweep is idempotent, so ticking does not change what a sweep would leave. */
  lemma {:induction false} SweepTwice(s: Store, t: int)
    ensures KeptBuckets(KeptBuckets(s.buckets, t), t) == KeptBuckets(s.buckets, t)
    ensures KeptQuotas(KeptQuotas(s.quotas, t), t) == KeptQuotas(s.quotas, t)
  {
    hide Reclaimable;
  }

  lemma {:induction false} TickSize(s: Store, t: int)
    ensures Size(Tick(s, t)) <= Size(s)
    ensures Size(Sweep(Tick(s, t), t)) == Size(Sweep(s, t))
  {
    hide KeptBuckets, KeptQuotas;
    KeptSize(s, t);
    SweepTwice(s, t);
  }

  /**
   A bucket operation is refused exactly when the key has no bucket and even after a sweep the store is
   full; a key with a bucket is always honoured, also when this call's own sweep reclaims it.
   */
  lemma {:induction false} ReadyRefusal(s: Store, cap: nat, key: string, rate: int, burst: int, t: int)
    requires Size(s) <= cap
    ensures !Ready(s, cap, key, rate, burst, t).1 <==> key !in s.buckets && Size(Sweep(s, t)) >= cap
    ensures Size(Ready(s, cap, key, rate, burst, t).0) <= cap
  {
    hide Refilled, Refill, Reclaimable;
    var u := Tick(s, t);
    TickSize(s, t);
    KeptSize(s, t);
    KeptSize(u, t);
    var a := Admit(u, cap, t);
    SizeUpdate(u.buckets, key, Refilled(if key in u.buckets then u.buckets[key] else Bucket(0, 0, 0, 0), t, rate, burst));
    SizeUpdate(a.0.buckets, key, Refilled(Bucket(burst * SCALE, t, rate, burst), t, rate, burst));
    if key in s.buckets && key !in u.buckets {
      assert u.buckets != s.buckets;
    }
  }

  /** The same for quota windows: an existing key's rollover is never refused. */
  lemma {:induction false} CurrentRefusal(s: Store, cap: nat, key: string, window: int, t: int)
    requires Size(s) <= cap
    ensures !Current(s, cap, key, window, t).1 <==> key !in s.quotas && Size(Sweep(s, t)) >= cap
    ensures Size(Current(s, cap, key, window, t).0) <= cap
    ensures Current(s, cap, key, window, t).1 ==> key in Current(s, cap, key, window, t).0.quotas
  {
    hide Reclaimable;
    var u := Tick(s, t);
    TickSize(s, t);
    KeptSize(s, t);
    KeptSize(u, t);
    var a := Admit(u, cap, t);
    SizeUpdate(u.quotas, key, Quota(0, t + window));
    SizeUpdate(a.0.quotas, key, Quota(0, t + window));
    if key in s.quotas && key !in u.quotas {
      assert u.quotas != s.quotas;
    }
  }

  // ---- agreement ------------------------------------------------------------------------------------

  /** The same buckets, except that full ones may have been reclaimed. */
  ghost predicate AgreeBuckets(m: Buckets, ref: Buckets, limits: Limits, t: int) {
    && (forall k :: k in m ==> k in ref && ref[k] == m[k])
    && (forall k :: k in ref && k !in m ==> Full(ref[k], t))
    && (forall k :: k in ref ==> Governed(ref[k], limits, k, t))
  }

  /** A bucket that carries its key's own limits and was last refilled no later than `t`. */
  predicate Governed(b: Bucket, limits: Limits, k: string, t: int) {
    0 < b.rate && (b.rate, b.burst) == limits(k) && b.last <= t
  }

  /** Agreement on every bucket but one. */
  ghost predicate AgreeExcept(m: Buckets, ref: Buckets, limits: Limits, t: int, key: string) {
    && (forall k :: k in m && k != key ==> k in ref && ref[k] == m[k])
    && (forall k :: k in ref && k !in m && k != key ==> Full(ref[k], t))
    && (forall k :: k in ref && k != key ==> Governed(ref[k], limits, k, t))
  }

  lemma {:induction false} SetAgrees(m: Buckets, ref: Buckets, limits: Limits, t: int, key: string, b: Bucket)
    requires AgreeExcept(m, ref, limits, t, key) && Governed(b, limits, key, t)
    ensures AgreeBuckets(m[key := b], ref[key := b], limits, t)
  {
    hide Full, Governed;
  }

  /** The same quota windows, as far as they are still open. */
  ghost predicate AgreeQuotas(m: Quotas, ref: Quotas, t: int) {
    && (forall k :: k in m && t < m[k].end ==> k in ref && ref[k] == m[k])
    && (forall k :: k in ref && t < ref[k].end ==> k in m && m[k] == ref[k])
  }

  ghost predicate Agree(s: Store, r: Ref, limits: Limits, t: int) {
    AgreeBuckets(s.buckets, r.buckets, limits, t) && AgreeQuotas(s.quotas, r.quotas, t)
  }

  lemma {:induction false} FullLater(b: Bucket, t: int, t': int)
    requires Full(b, t) && 0 < b.rate && t <= t'
    ensures Full(b, t')
  {
    hide Refill;
    RefillAdds(t - b.last, t' - t, b.rate);
    RefillGrows(t' - t, b.rate);
  }

  lemma {:induction false} AgreeLater(s: Store, r: Ref, limits: Limits, t: int, t': int)
    requires Agree(s, r, limits, t) && t <= t'
    ensures Agree(s, r, limits, t')
  {
    hide Full;
    forall k | k in r.buckets && k !in s.buckets
      ensures Full(r.buckets[k], t')
    {
      FullLater(r.buckets[k], t, t');
    }
  }

  lemma {:induction false} SweepAgrees(s: Store, r: Ref, limits: Limits, t: int)
    requires Agree(s, r, limits, t)
    ensures Agree(Sweep(s, t), r, limits, t)
  {
    hide Full;
  }

  lemma {:induction false} TickAgrees(s: Store, r: Ref, limits: Limits, t: int)
    requires Agree(s, r, limits, t)
    ensures Agree(Tick(s, t), r, limits, t)
  {
    SweepAgrees(s, r, limits, t);
  }

  lemma {:induction false} AdmitAgrees(s: Store, cap: nat, r: Ref, limits: Limits, t: int)
    requires Agree(s, r, limits, t)
    ensures Agree(Admit(s, cap, t).0, r, limits, t)
  {
    hide AgreeBuckets, AgreeQuotas, KeptBuckets, KeptQuotas;
    SweepAgrees(s, r, limits, t);
  }

  /** A full bucket and a missing one refill to the same thing. */
  lemma {:induction false} FullIsFresh(b: Bucket, t: int)
    requires Full(b, t)
    ensures Refilled(b, t, b.rate, b.burst) == Refilled(Bucket(b.burst * SCALE, t, b.rate, b.burst), t, b.rate, b.burst)
  {
    hide Refill;
    RefillZero(b.rate);
  }

  /** The two limiters bring a key up to date to the same bucket. */
  lemma {:induction false} ReadyAgrees(s: Store, cap: nat, r: Ref, limits: Limits, key: string, rate: int,
                                       burst: int, t: int)
    requires Agree(s, r, limits, t) && 0 < rate && (rate, burst) == limits(key)
    ensures var (u, ok) := Ready(s, cap, key, rate, burst, t);
            && AgreeQuotas(u.quotas, r.quotas, t)
            && (ok ==> key in u.buckets && u.buckets[key] == RefReady(r.buckets, key, rate, burst, t)
                       && AgreeExcept(u.buckets, r.buckets, limits, t, key))
            && (!ok ==> AgreeBuckets(u.buckets, r.buckets, limits, t))
  {
    hide Full, Refilled, Tick, Admit, AgreeQuotas;
    var u := Tick(s, t);
    TickAgrees(s, r, limits, t);
    AdmitAgrees(u, cap, r, limits, t);
    if key !in u.buckets && key in r.buckets {
      FullIsFresh(r.buckets[key], t);
    }
  }

  lemma {:induction false} AllowAgrees(s: Store, cap: nat, r: Ref, limits: Limits, t: int, op: Op)
    requires op.AllowRate? && Agree(s, r, limits, t) && Conforming(op, limits)
    ensures if Refused(s, cap, t, op)
            then Agree(StepStore(s, cap, t, op), r, limits, t) && StepAnswer(s, cap, t, op) == No
            else Agree(StepStore(s, cap, t, op), RefStep(r, t, op), limits, t)
                 && StepAnswer(s, cap, t, op) == RefAnswer(r, t, op)
  {
    hide Ready, AgreeBuckets, AgreeQuotas, AgreeExcept, RefReady;
    if op.rate <= 0 {
      return;
    }
    ReadyAgrees(s, cap, r, limits, op.key, op.rate, op.burst, t);
    var (u, ok) := Ready(s, cap, op.key, op.rate, op.burst, t);
    if ok {
      ReadyParameters(r.buckets, op.key, op.rate, op.burst, t);
      SetAgrees(u.buckets, r.buckets, limits, t, op.key, Charged(u.buckets[op.key], op.cost));
    }
  }

  lemma {:induction false} ReadyParameters(m: Buckets, key: string, rate: int, burst: int, t: int)
    ensures var b := RefReady(m, key, rate, burst, t); b.rate == rate && b.burst == burst && b.last == t
  {
  }

  /**
   The one thing reclaiming can hide: a correction to a key whose bucket is gone, big enough to take the
   bucket the reference still has below its burst.
   */
  predicate LosesDebit(s: Store, r: Ref, t: int, op: Op) {
    && op.AdjustRate? && op.key !in s.buckets && op.key in r.buckets
    && Projected(r.buckets[op.key], t) + op.delta * SCALE < op.burst * SCALE
  }

  /** A corrected bucket is full exactly when the projected balance covers the correction. */
  lemma {:induction false} AdjustedFullIff(b: Bucket, delta: int, t: int)
    requires b.last <= t && 0 < b.rate
    ensures Full(Adjusted(b, delta, b.burst), t) <==> Projected(b, t) + delta * SCALE >= b.burst * SCALE
  {
    hide Refill;
    RefillGrows(t - b.last, b.rate);
  }

  /** A correction keeps the two limiters in agreement exactly when it is not lost. */
  lemma {:induction false} AdjustAgreesIff(s: Store, cap: nat, r: Ref, limits: Limits, t: int, op: Op)
    requires op.AdjustRate? && Agree(s, r, limits, t) && Conforming(op, limits)
    ensures Agree(StepStore(s, cap, t, op), RefStep(r, t, op), limits, t) <==> !LosesDebit(s, r, t, op)
  {
    hide Full, Projected;
    if op.key in r.buckets {
      var b := Adjusted(r.buckets[op.key], op.delta, op.burst);
      if op.key in s.buckets {
        SetAgrees(s.buckets, r.buckets, limits, t, op.key, b);
      } else {
        AdjustedFullIff(r.buckets[op.key], op.delta, t);
      }
    }
  }

  /** A credit is never lost. */
  lemma {:induction false} CreditIsNeverLost(s: Store, r: Ref, limits: Limits, t: int, op: Op)
    requires op.AdjustRate? && Agree(s, r, limits, t) && Conforming(op, limits) && 0 <= op.delta
    ensures !LosesDebit(s, r, t, op)
  {
    hide Refill;
  }

  /** Reading how much of a reclaimed bucket is in use answers zero, as reading it kept would. */
  lemma {:induction false} RateUsedAgrees(s: Store, cap: nat, r: Ref, limits: Limits, t: int, op: Op)
    requires op.RateUsed? && Agree(s, r, limits, t) && Conforming(op, limits)
    ensures StepAnswer(s, cap, t, op) == RefAnswer(r, t, op)
  {
    hide Refill;
    assert UsedTokens(op.burst * SCALE, op.burst) == 0;
  }

  lemma {:induction false} CurrentAgrees(s: Store, cap: nat, r: Ref, limits: Limits, key: string, window: int, t: int)
    requires Agree(s, r, limits, t)
    ensures var (u, ok) := Current(s, cap, key, window, t);
            && AgreeBuckets(u.buckets, r.buckets, limits, t)
            && (ok ==> key in u.quotas && u.quotas[key] == RefCurrent(r.quotas, key, window, t)
                       && AgreeQuotas(u.quotas, r.quotas[key := RefCurrent(r.quotas, key, window, t)], t))
            && (!ok ==> AgreeQuotas(u.quotas, r.quotas, t))
  {
    hide AgreeBuckets, AgreeQuotas, Tick, Admit;
    var u, b := Tick(s, t), Quota(0, t + window);
    TickAgrees(s, r, limits, t);
    AdmitAgrees(u, cap, r, limits, t);
    QuotaAt(s.quotas, r.quotas, t, key);
    QuotaAt(u.quotas, r.quotas, t, key);
    SetQuotaAgrees(u.quotas, r.quotas, t, key, b);
    SetQuotaAgrees(Admit(u, cap, t).0.quotas, r.quotas, t, key, b);
    if key in r.quotas {
      assert r.quotas[key := r.quotas[key]] == r.quotas;
    }
  }

  lemma {:induction false} QuotaAt(m: Quotas, ref: Quotas, t: int, key: string)
    requires AgreeQuotas(m, ref, t)
    ensures (key in m && t < m[key].end) <==> (key in ref && t < ref[key].end)
    ensures key in m && t < m[key].end ==> m[key] == ref[key]
  {
  }

  lemma {:induction false} SetQuotaAgrees(m: Quotas, ref: Quotas, t: int, key: string, b: Quota)
    requires AgreeQuotas(m, ref, t)
    ensures AgreeQuotas(m[key := b], ref[key := b], t)
  {
  }

  lemma {:induction false} QuotaAgrees(s: Store, cap: nat, r: Ref, limits: Limits, t: int, op: Op)
    requires (op.CheckQuota? || op.DebitQuota?) && Agree(s, r, limits, t) && Size(s) <= cap
    ensures if Refused(s, cap, t, op)
            then Agree(StepStore(s, cap, t, op), r, limits, t)
                 && (StepAnswer(s, cap, t, op) == if op.CheckQuota? then No else Done)
            else Agree(StepStore(s, cap, t, op), RefStep(r, t, op), limits, t)
                 && StepAnswer(s, cap, t, op) == RefAnswer(r, t, op)
  {
    hide AgreeBuckets, AgreeQuotas, Current, RefCurrent, Size;
    CurrentAgrees(s, cap, r, limits, op.key, op.window, t);
    if op.DebitQuota? && !Refused(s, cap, t, op) {
      var m, q := Current(s, cap, op.key, op.window, t).0.quotas, RefCurrent(r.quotas, op.key, op.window, t);
      var paid := q.(used := Wrap64(q.used + op.actual));
      SetQuotaAgrees(m, r.quotas[op.key := q], t, op.key, paid);
      assert r.quotas[op.key := q][op.key := paid] == r.quotas[op.key := paid];
    }
  }

  /** Every step keeps the limiter and its reference in agreement, and answers alike unless refused. */
  lemma {:induction false} StepAgrees(s: Store, cap: nat, r: Ref, limits: Limits, t: int, op: Op)
    requires Agree(s, r, limits, t) && Conforming(op, limits) && !LosesDebit(s, r, t, op) && Size(s) <= cap
    ensures Agree(StepStore(s, cap, t, op), if Refused(s, cap, t, op) then r else RefStep(r, t, op), limits, t)
    ensures StepAnswer(s, cap, t, op) ==
            if Refused(s, cap, t, op) then (if op.DebitQuota? then Done else No) else RefAnswer(r, t, op)
  {
    hide AgreeBuckets, Ready, Current;
    match op
    case AllowRate(_, _, _, _) => AllowAgrees(s, cap, r, limits, t, op);
    case AdjustRate(_, _, _) => AdjustAgreesIff(s, cap, r, limits, t, op);
    case RateUsed(_, _, _) => RateUsedAgrees(s, cap, r, limits, t, op);
    case CheckQuota(_, _, _, _) => QuotaAgrees(s, cap, r, limits, t, op);
    case DebitQuota(_, _, _) => QuotaAgrees(s, cap, r, limits, t, op);
    case QuotaUsed(_) =>
  }

  /** The store never outgrows its capacity; an operation is refused only for want of room for a new entry. */
  lemma {:induction false} StepBounded(s: Store, cap: nat, t: int, op: Op)
    requires Size(s) <= cap
    ensures Size(StepStore(s, cap, t, op)) <= cap
    ensures Refused(s, cap, t, op)
            ==> op.key !in (if op.AllowRate? then s.buckets.Keys else s.quotas.Keys) && Size(Sweep(s, t)) >= cap
  {
    hide Ready, Current, Sweep, Charged, Adjusted;
    match op
    case AllowRate(key, cost, rate, burst) =>
      if rate > 0 {
        ReadyRefusal(s, cap, key, rate, burst, t);
        ReadyHasKey(s, cap, key, rate, burst, t);
        var r := Ready(s, cap, key, rate, burst, t);
        if r.1 {
          SizeUpdate(r.0.buckets, key, Charged(r.0.buckets[key], cost));
        }
      }
    case AdjustRate(key, delta, burst) =>
      if key in s.buckets {
        SizeUpdate(s.buckets, key, Adjusted(s.buckets[key], delta, burst));
      }
    case CheckQuota(key, _, limit, window) =>
      CurrentRefusal(s, cap, key, window, t);
    case DebitQuota(key, actual, window) =>
      CurrentRefusal(s, cap, key, window, t);
      var r := Current(s, cap, key, window, t);
      if r.1 {
        SizeUpdate(r.0.quotas, key, r.0.quotas[key].(used := Wrap64(r.0.quotas[key].used + actual)));
      }
    case RateUsed(_, _, _) =>
    case QuotaUsed(_) =>
  }

  lemma {:induction false} ReadyHasKey(s: Store, cap: nat, key: string, rate: int, burst: int, t: int)
    ensures Ready(s, cap, key, rate, burst, t).1 ==> key in Ready(s, cap, key, rate, burst, t).0.buckets
  {
  }

  // ---- runs -----------------------------------------------------------------------------------------

  datatype Both = Both(s: Store, r: Ref)

  /** Both limiters through the same run; the reference skips what the real one refused. */
  ghost function RunBoth(cap: nat, ops: seq<Timed>): Both {
    if ops == [] then Both(Store(map[], map[], 0, 0), Ref(map[], map[]))
    else
      var before, o := RunBoth(cap, ops[..|ops| - 1]), ops[|ops| - 1];
      Both(StepStore(before.s, cap, o.t, o.op),
           if Refused(before.s, cap, o.t, o.op) then before.r else RefStep(before.r, o.t, o.op))
  }

  /** Every key has its own fixed limits, no correction of the run is lost, and the clock runs forward. */
  ghost predicate Admissible(cap: nat, ops: seq<Timed>, limits: Limits) {
    && (forall i :: 0 <= i < |ops| ==> Conforming(ops[i].op, limits) && Kept(RunBoth(cap, ops[..i]), ops[i]))
    && (forall i, j :: 0 <= i < j < |ops| ==> ops[i].t <= ops[j].t)
  }

  predicate Kept(b: Both, o: Timed) {
    !LosesDebit(b.s, b.r, o.t, o.op)
  }

  lemma {:induction false} AdmissiblePrefix(cap: nat, ops: seq<Timed>, limits: Limits, n: nat)
    requires Admissible(cap, ops, limits) && n <= |ops|
    ensures Admissible(cap, ops[..n], limits)
  {
    hide Conforming, Kept, RunBoth;
    assert forall i :: 0 <= i < n ==> ops[..n][..i] == ops[..i];
  }

  lemma {:induction false} RunAgrees(cap: nat, limits: Limits, ops: seq<Timed>, t: int)
    requires Admissible(cap, ops, limits) && (ops != [] ==> ops[|ops| - 1].t <= t)
    ensures var b := RunBoth(cap, ops); Size(b.s) <= cap && Agree(b.s, b.r, limits, t)
  {
    hide StepStore, RefStep, Refused, Conforming;
    if ops == [] {
      hide *;
    } else {
      var n := |ops| - 1;
      AdmissiblePrefix(cap, ops, limits, n);
      assert Kept(RunBoth(cap, ops[..n]), ops[n]);
      RunAgrees(cap, limits, ops[..n], ops[n].t);
      var before := RunBoth(cap, ops[..n]);
      StepAgrees(before.s, cap, before.r, limits, ops[n].t, ops[n].op);
      StepBounded(before.s, cap, ops[n].t, ops[n].op);
      var b := RunBoth(cap, ops);
      AgreeLater(b.s, b.r, limits, ops[n].t, t);
    }
  }

  /**
   The limiter refines the unbounded reference: after any run under a forward clock, with fixed limits
   per key and no lost correction, the next operation is answered as the reference would answer it,
   unless the key has no entry and the store is full of entries that cannot be reclaimed - then it is
   denied and leaves no trace. The store stays within its capacity throughout.
   */
  lemma {:induction false} LimiterRefinesReference(cap: nat, limits: Limits, ops: seq<Timed>, t: int, op: Op)
    requires Admissible(cap, ops, limits) && Conforming(op, limits) && Kept(RunBoth(cap, ops), Timed(t, op))
    requires (ops != [] ==> ops[|ops| - 1].t <= t)
    ensures var b := RunBoth(cap, ops);
            && Size(b.s) <= cap
            && StepAnswer(b.s, cap, t, op) ==
               (if Refused(b.s, cap, t, op) then (if op.DebitQuota? then Done else No) else RefAnswer(b.r, t, op))
            && (Refused(b.s, cap, t, op) ==>
                  op.key !in (if op.AllowRate? then b.s.buckets.Keys else b.s.quotas.Keys) && Size(Sweep(b.s, t)) >= cap)
  {
    assert !LosesDebit(RunBoth(cap, ops).s, RunBoth(cap, ops).r, t, op);
    hide *;
    RunAgrees(cap, limits, ops, t);
    var b := RunBoth(cap, ops);
    StepAgrees(b.s, cap, b.r, limits, t, op);
    StepBounded(b.s, cap, t, op);
  }

  // ---- lost corrections -----------------------------------------------------------------------------

  /**
   The condition is exact: after any run in agreement, a correction that is lost shows at once. A request for
   the whole burst right after it is let through, unless there is no room for the key at all, while the
   reference denies it.
   */
  lemma {:induction false} LostCorrectionShows(cap: nat, limits: Limits, ops: seq<Timed>, t: int, op: Op)
    requires Admissible(cap, ops, limits) && Conforming(op, limits) && (ops != [] ==> ops[|ops| - 1].t <= t)
    requires op.AdjustRate? && !Kept(RunBoth(cap, ops), Timed(t, op))
    ensures var b := RunBoth(cap, ops);
            var s, r := StepStore(b.s, cap, t, op), RefStep(b.r, t, op);
            var probe := AllowRate(op.key, op.burst, limits(op.key).0, op.burst);
            && Conforming(probe, limits) && RefAnswer(r, t, probe) == No
            && (!Refused(s, cap, t, probe) ==> StepAnswer(s, cap, t, probe) == Yes)
  {
    var b := RunBoth(cap, ops);
    RunAgrees(cap, limits, ops, t);
    hide RunBoth, Admissible;
    LostShows(b.s, cap, b.r, limits, t, op);
  }

  lemma {:induction false} LostShows(s: Store, cap: nat, r: Ref, limits: Limits, t: int, op: Op)
    requires Agree(s, r, limits, t) && Conforming(op, limits) && LosesDebit(s, r, t, op)
    ensures var s', r' := StepStore(s, cap, t, op), RefStep(r, t, op);
            var probe := AllowRate(op.key, op.burst, limits(op.key).0, op.burst);
            && Conforming(probe, limits) && RefAnswer(r', t, probe) == No
            && (!Refused(s', cap, t, probe) ==> StepAnswer(s', cap, t, probe) == Yes)
  {
    hide Refill, Sweep, AgreeQuotas, Projected, RefAnswer, StepAnswer, Ready;
    assert Governed(r.buckets[op.key], limits, op.key, t);
    assert StepStore(s, cap, t, op) == s;
    ReferenceDenies(r, limits, t, op);
    FreshKeyPasses(s, cap, t, op.key, limits(op.key).0, op.burst);
  }

  lemma {:induction false} ReferenceDenies(r: Ref, limits: Limits, t: int, op: Op)
    requires op.AdjustRate? && op.key in r.buckets && Governed(r.buckets[op.key], limits, op.key, t)
    requires op.burst == limits(op.key).1
    requires Projected(r.buckets[op.key], t) + op.delta * SCALE < op.burst * SCALE
    ensures RefAnswer(RefStep(r, t, op), t, AllowRate(op.key, op.burst, limits(op.key).0, op.burst)) == No
  {
    hide Refill;
  }

  /** A key without a bucket, if it gets one, gets a full one. */
  lemma {:induction false} FreshKeyPasses(s: Store, cap: nat, t: int, key: string, rate: int, burst: int)
    requires key !in s.buckets && 0 < rate
    ensures var probe := AllowRate(key, burst, rate, burst);
            !Refused(s, cap, t, probe) ==> StepAnswer(s, cap, t, probe) == Yes
  {
    hide Refill, Tick, Admit;
    RefillZero(rate);
    AbsentStaysAbsent(s, cap, t, key);
  }

  /** Sweeping adds no key. */
  lemma {:induction false} AbsentStaysAbsent(s: Store, cap: nat, t: int, key: string)
    requires key !in s.buckets
    ensures key !in Tick(s, t).buckets && key !in Admit(Tick(s, t), cap, t).0.buckets
  {
  }

  /**
   A run from an empty store of capacity one that loses a debit: a request empties a one-token bucket, a
   second later another key's request reclaims it, and the debit that follows finds nothing to debit. The
   next request is let through, although the reference denies it.
   */
  lemma {:induction false} LostDebit()
    ensures var ops := [Timed(0, AllowRate("k", 1, 60, 1)), Timed(1_000_000_000, AllowRate("j", 0, 60, 1)),
                        Timed(1_000_000_000, AdjustRate("k", -1, 1))];
            var probe := AllowRate("k", 1, 60, 1);
            && !Refused(RunBoth(1, ops).s, 1, 1_000_000_000, probe)
            && StepAnswer(RunBoth(1, ops).s, 1, 1_000_000_000, probe) == Yes
            && RefAnswer(RunBoth(1, ops).r, 1_000_000_000, probe) == No
  {
    hide StepStore, RefStep, Refused, StepAnswer, RefAnswer;
    var t := 1_000_000_000;
    var first, second := Timed(0, AllowRate("k", 1, 60, 1)), Timed(t, AllowRate("j", 0, 60, 1));
    var third := Timed(t, AdjustRate("k", -1, 1));
    var ops := [first, second, third];
    assert ops[..2] == [first, second] && [first, second][..1] == [first] && [first][..0] == [];
    EmptiesBucket();
    ReclaimsBucket();
    MissesBucket();
    assert RunBoth(1, [first]) == Both(Store(map["k" := SPENT], map[], 1, 0), Ref(map["k" := SPENT], map[]));
    assert RunBoth(1, [first, second])
           == Both(Store(map["j" := RESTED], map[], 2, 0), Ref(map["k" := SPENT, "j" := RESTED], map[]));
  }

  // The one-token bucket after its request, and a full one a second later.
  const SPENT: Bucket := Bucket(0, 0, 60, 1)
  const RESTED: Bucket := Bucket(SCALE, 1_000_000_000, 60, 1)

  lemma {:induction false} EmptiesBucket()
    ensures var empty, op := Store(map[], map[], 0, 0), AllowRate("k", 1, 60, 1);
            && !Refused(empty, 1, 0, op)
            && StepStore(empty, 1, 0, op) == Store(map["k" := SPENT], map[], 1, 0)
            && RefStep(Ref(map[], map[]), 0, op) == Ref(map["k" := SPENT], map[])
  {
  }

  lemma {:induction false} ReclaimsBucket()
    ensures var s, t, op := Store(map["k" := SPENT], map[], 1, 0), 1_000_000_000, AllowRate("j", 0, 60, 1);
            && !Refused(s, 1, t, op)
            && StepStore(s, 1, t, op) == Store(map["j" := RESTED], map[], 2, 0)
            && RefStep(Ref(map["k" := SPENT], map[]), t, op) == Ref(map["k" := SPENT, "j" := RESTED], map[])
  {
    var t := 1_000_000_000;
    OneKey("k", SPENT, 2);
    assert Reclaimable(SPENT, t) && KeptBuckets(map["k" := SPENT], t) == map[];
  }

  lemma {:induction false} MissesBucket()
    ensures var s, r, t := Store(map["j" := RESTED], map[], 2, 0), Ref(map["k" := SPENT, "j" := RESTED], map[]), 1_000_000_000;
            var op, probe := AdjustRate("k", -1, 1), AllowRate("k", 1, 60, 1);
            && !Refused(s, 1, t, op) && StepStore(s, 1, t, op) == s
            && !Refused(s, 1, t, probe) && StepAnswer(s, 1, t, probe) == Yes
            && RefAnswer(RefStep(r, t, op), t, probe) == No
  {
    var t := 1_000_000_000;
    OneKey("j", RESTED, 3);
    assert Reclaimable(RESTED, t) && KeptBuckets(map["j" := RESTED], t) == map[];
  }

  lemma {:induction false} OneKey(key: string, b: Bucket, n: nat)
    ensures |map[key := b]| == 1 && Size(Store(map[key := b], map[], n, 0)) == 1
  {
    assert map[key := b].Keys == {key};
  }
}
