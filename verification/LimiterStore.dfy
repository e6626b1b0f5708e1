/** The limiter as the running object: maps updated in place, every method proved against the value-level steps. */
module LimiterStore {
  import opened Ints
  import opened RateLimiter

  class Memory {
    var buckets: Buckets
    var quotas: Quotas
    var sweepTick: nat
    var rejected: nat
    const maxEntries: nat

    function Contents(): Store
      reads this
    {
      Store(buckets, quotas, sweepTick, rejected)
    }

    constructor (maxEntries: nat)
      ensures Contents() == Store(map[], map[], 0, 0) && this.maxEntries == maxEntries
    {
      buckets, quotas, sweepTick, rejected := map[], map[], 0, 0;
      this.maxEntries := maxEntries;
    }

    method SweepReclaimable(t: int)
      modifies this`buckets, this`quotas
      ensures Contents() == Sweep(old(Contents()), t)
    {
      ghost var was, had := buckets, quotas;
      var todo := buckets.Keys;
      while todo != {}
        invariant todo <= buckets.Keys <= was.Keys && quotas == had
        invariant forall k :: k in buckets ==> buckets[k] == was[k]
        invariant forall k :: k in was && k !in todo ==> (k in buckets <==> !Reclaimable(was[k], t))
      {
        var k :| k in todo;
        var b := buckets[k];
        if b.rate > 0 && b.tokens + Refill(t - b.last, b.rate) >= b.burst * SCALE {
          buckets := buckets - {k};
        }
        todo := todo - {k};
      }
      assert buckets == KeptBuckets(was, t);
      todo := quotas.Keys;
      while todo != {}
        invariant todo <= quotas.Keys <= had.Keys && buckets == KeptBuckets(was, t)
        invariant forall k :: k in quotas ==> quotas[k] == had[k]
        invariant forall k :: k in had && k !in todo ==> (k in quotas <==> t < had[k].end)
      {
        var k :| k in todo;
        if !(t < quotas[k].end) {
          quotas := quotas - {k};
        }
        todo := todo - {k};
      }
      assert quotas == KeptQuotas(had, t);
    }

    method TickSweep(t: int)
      modifies this
      ensures Contents() == Tick(old(Contents()), t)
    {
      sweepTick := sweepTick + 1;
      if sweepTick >= SWEEP_EVERY {
        sweepTick := 0;
        SweepReclaimable(t);
      }
    }

    method AdmitEntry(t: int) returns (ok: bool)
      modifies this
      ensures (Contents(), ok) == Admit(old(Contents()), maxEntries, t)
    {
      if |buckets| + |quotas| < maxEntries {
        return true;
      }
      SweepReclaimable(t);
      if |buckets| + |quotas| < maxEntries {
        return true;
      }
      rejected := rejected + 1;
      ok := false;
    }

    /** Charge a bucket; false when it lacks the tokens, or when the store has no room for a new one. */
    method Allow(key: string, cost: int, rate: int, burst: int, t: int) returns (ok: bool)
      modifies this
      ensures Contents() == StepStore(old(Contents()), maxEntries, t, AllowRate(key, cost, rate, burst))
      ensures StepAnswer(old(Contents()), maxEntries, t, AllowRate(key, cost, rate, burst)) == if ok then Yes else No
    {
      hide Sweep, Refill, Tick, Admit;
      if rate <= 0 {
        return true;
      }
      TickSweep(t);
      if key !in buckets {
        var admitted := AdmitEntry(t);
        if !admitted {
          return false;
        }
        buckets := buckets[key := Bucket(burst * SCALE, t, rate, burst)];
      }
      var b := buckets[key].(rate := rate, burst := burst);
      b := b.(tokens := b.tokens + Refill(t - b.last, rate));
      if b.tokens > burst * SCALE {
        b := b.(tokens := burst * SCALE);
      }
      b := b.(last := t);
      ok := b.tokens >= cost * SCALE;
      if ok {
        b := b.(tokens := b.tokens - cost * SCALE);
      }
      buckets := buckets[key := b];
    }

    /** A correction is applied to the balance as it stands: capped above, never floored below. */
    method Adjust(key: string, delta: int, burst: int, t: int)
      modifies this`buckets
      ensures Contents() == StepStore(old(Contents()), maxEntries, t, AdjustRate(key, delta, burst))
    {
      if key !in buckets {
        return;
      }
      var b := buckets[key].(tokens := buckets[key].tokens + delta * SCALE);
      if b.tokens > burst * SCALE {
        b := b.(tokens := burst * SCALE);
      }
      buckets := buckets[key := b];
    }

    /** A read-only projection of the same refill. */
    method Used(key: string, rate: int, burst: int, t: int) returns (n: int)
      ensures Tokens(n) == StepAnswer(Contents(), maxEntries, t, RateUsed(key, rate, burst))
    {
      if rate <= 0 || key !in buckets {
        return 0;
      }
      var tokens := buckets[key].tokens + Refill(t - buckets[key].last, rate);
      if tokens > burst * SCALE {
        tokens := burst * SCALE;
      }
      var used := burst * SCALE - tokens;
      if used < 0 {
        used := 0;
      }
      n := (used + SCALE / 2) / SCALE;
    }

    /** The live window of a quota key, rolled if it has elapsed. */
    method CurrentWindow(key: string, window: int, t: int) returns (ok: bool)
      modifies this
      ensures (Contents(), ok) == Current(old(Contents()), maxEntries, key, window, t)
      ensures ok ==> key in quotas
    {
      hide KeptBuckets;
      var had := key in quotas;
      var live := had && t < quotas[key].end;
      TickSweep(t);
      if live {
        return true;
      }
      if !had {
        var admitted := AdmitEntry(t);
        if !admitted {
          return false;
        }
      }
      quotas := quotas[key := Quota(0, t + window)];
      ok := true;
    }

    method WithinQuota(key: string, estimate: int, limit: int, window: int, t: int) returns (ok: bool)
      modifies this
      ensures Contents() == StepStore(old(Contents()), maxEntries, t, CheckQuota(key, estimate, limit, window))
      ensures StepAnswer(old(Contents()), maxEntries, t, CheckQuota(key, estimate, limit, window)) == if ok then Yes else No
    {
      if limit <= 0 {
        return true;
      }
      var tracked := CurrentWindow(key, window, t);
      if !tracked {
        return false;
      }
      ok := !(Wrap64(quotas[key].used + estimate) > limit);
    }

    method DebitUsage(key: string, actual: int, window: int, t: int)
      modifies this
      ensures Contents() == StepStore(old(Contents()), maxEntries, t, DebitQuota(key, actual, window))
    {
      var tracked := CurrentWindow(key, window, t);
      if tracked {
        quotas := quotas[key := quotas[key].(used := Wrap64(quotas[key].used + actual))];
      }
    }
  }
}
