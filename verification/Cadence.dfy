/**
 The pace of heartbeats: the interval the control plane asks for, the backoff after failures, and the leases it
 must keep.
 */
module Cadence {
  import opened Ints

  // Nanoseconds.
  const SECOND: int := 1_000_000_000
  const MIN_INTERVAL: int := 15 * SECOND
  const MAX_INTERVAL: int := 60 * SECOND

  /** The interval asked for by the rule with the shortest renewal, in whole seconds and at least one. */
  function Requested(renew: int): int {
    Max(renew / SECOND, 1) * SECOND
  }

  /** The wait after a failed attempt that followed a wait of `prev`, before it is jittered. */
  function Backoff(prev: int): int {
    Min(Max(2 * prev, MIN_INTERVAL), MAX_INTERVAL)
  }

  /** Jitter takes off up to a fifth, but never goes below the floor. */
  predicate Jittered(d: int, out: int) {
    MIN_INTERVAL <= out <= d && (out == MIN_INTERVAL || 4 * d <= 5 * out)
  }

  /**
   What one tick waits before the next attempt: what was asked for after a success, a jittered backoff after a
   failure.
   */
  predicate NextWait(failed: bool, asked: int, prev: int, wait: int) {
    if failed then Jittered(Backoff(prev), wait) else wait == asked
  }

  /** The attempt after two failures in a row comes `third` after the last answer, under an asked interval. */
  ghost predicate AfterTwoMisses(asked: int, third: int) {
    exists first, second ::
      NextWait(true, asked, asked, first) && NextWait(true, asked, first, second) && third == asked + first + second
  }

  /** The latest the attempt after two misses can come. */
  function Latest(asked: int): int {
    asked + Backoff(asked) + Backoff(Backoff(asked))
  }

  lemma {:induction false} LatestIsLatest(asked: int, third: int)
    requires AfterTwoMisses(asked, third)
    ensures asked + 2 * MIN_INTERVAL <= third <= Latest(asked)
  {
    var first, second :|
      NextWait(true, asked, asked, first) && NextWait(true, asked, first, second) && third == asked + first + second;
    assert first <= Backoff(asked) && Backoff(first) <= Backoff(Backoff(asked));
  }

  lemma {:induction false} LatestComes(asked: int)
    ensures AfterTwoMisses(asked, Latest(asked))
  {
    var first := Backoff(asked);
    var second := Backoff(first);
    assert NextWait(true, asked, asked, first) && NextWait(true, asked, first, second);
  }

  /**
   Are two missed heartbeats tolerated, as a lease of three renewals suggests? For the rule that sets the pace,
   the attempt after two misses always comes before the lease has expired if and only if three renewals last at
   least 179 seconds; for whole seconds, if the renewal is at least a minute. Below that the backoff doubles
   faster than the lease lasts.
   */
  lemma {:induction false} TwoMissesToleratedIff(renew: int)
    ensures (forall third :: AfterTwoMisses(Requested(renew), third) ==> third <= 3 * renew) <==> 3 * renew >= 179 * SECOND
    ensures renew % SECOND == 0 ==> (3 * renew >= 179 * SECOND <==> renew >= 60 * SECOND)
  {
    var asked := Requested(renew);
    var n := Max(renew / SECOND, 1);
    assert asked == n * SECOND && renew < asked + SECOND && (n == 1 || asked <= renew);
    LatestComes(asked);
    forall third | AfterTwoMisses(asked, third)
      ensures third <= Latest(asked)
    {
      LatestIsLatest(asked, third);
    }
    assert Latest(asked) <= 3 * renew <==> 3 * renew >= 179 * SECOND by {
      LatestAgainst(n, renew);
    }
  }

  lemma {:induction false} LatestAgainst(n: int, renew: int)
    requires 1 <= n && renew < n * SECOND + SECOND && (n == 1 || n * SECOND <= renew)
    ensures Latest(n * SECOND) <= 3 * renew <==> 3 * renew >= 179 * SECOND
  {
    if n >= 60 {
      assert Latest(n * SECOND) == n * SECOND + 120 * SECOND;
    } else if n >= 30 {
      assert Latest(n * SECOND) == n * SECOND + 120 * SECOND;
    }
  }

  /** The default renewal of ten seconds: the lease lasts thirty, and the third attempt can come after seventy. */
  lemma {:induction false} DefaultRenewalLapses()
    ensures AfterTwoMisses(Requested(10 * SECOND), 70 * SECOND) && 70 * SECOND > 3 * (10 * SECOND)
  {
    LatestComes(10 * SECOND);
  }
}
