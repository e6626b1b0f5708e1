/**
 The instance-local limiter: token buckets that may go into debt, quota windows, a reclaiming sweep and
 a capacity fail-safe. Time is in nanoseconds and tokens are counted in units of 1/SCALE, so the refill
 of a bucket is the exact integer `elapsed * rate`.
 */
module RateLimiter {
  import opened Ints

  const SCALE: int := 60_000_000_000
  const SWEEP_EVERY: nat := 256

  function Refill(dt: int, rate: int): int {
    dt * rate
  }

  lemma {:induction false} RefillAdds(a: int, b: int, rate: int)
    ensures Refill(a + b, rate) == Refill(a, rate) + Refill(b, rate)
  {
  }

  lemma {:induction false} RefillGrows(dt: int, rate: int)
    requires 0 <= dt && 0 <= rate
    ensures 0 <= Refill(dt, rate)
  {
  }

  datatype Bucket = Bucket(tokens: int, last: int, rate: int, burst: int)

  datatype Quota = Quota(used: int, end: int)

  type Buckets = map<string, Bucket>
  type Quotas = map<string, Quota>

  datatype Store = Store(buckets: Buckets, quotas: Quotas, tick: nat, rejected: nat)

  function Size(s: Store): nat {
    |s.buckets| + |s.quotas|
  }

  /** Tokens at `t`, before the cap. */
  function Projected(b: Bucket, t: int): int {
    b.tokens + Refill(t - b.last, b.rate)
  }

  /** A bucket refilled to its burst decides exactly like a missing one; one in debt is never reclaimed. */
  predicate Full(b: Bucket, t: int) {
    Projected(b, t) >= b.burst * SCALE
  }

  predicate Reclaimable(b: Bucket, t: int) {
    b.rate > 0 && Full(b, t)
  }

  function KeptBuckets(m: Buckets, t: int): Buckets {
    map k | k in m && !Reclaimable(m[k], t) :: m[k]
  }

  function KeptQuotas(m: Quotas, t: int): Quotas {
    map k | k in m && t < m[k].end :: m[k]
  }

  function Sweep(s: Store, t: int): Store {
    s.(buckets := KeptBuckets(s.buckets, t), quotas := KeptQuotas(s.quotas, t))
  }

  function Tick(s: Store, t: int): Store {
    if s.tick + 1 >= SWEEP_EVERY then Sweep(s.(tick := 0), t) else s.(tick := s.tick + 1)
  }

  /** Room for one more entry, sweeping first; a refusal is counted. */
  function Admit(s: Store, cap: nat, t: int): (r: (Store, bool)) {
    if Size(s) < cap then (s, true)
    else
      var u := Sweep(s, t);
      if Size(u) < cap then (u, true) else (u.(rejected := u.rejected + 1), false)
  }

  /** A bucket brought up to `t` under the caller's parameters. */
  function Refilled(b: Bucket, t: int, rate: int, burst: int): Bucket {
    Bucket(Min(burst * SCALE, b.tokens + Refill(t - b.last, rate)), t, rate, burst)
  }

  function Charged(b: Bucket, cost: int): Bucket {
    if b.tokens >= cost * SCALE then b.(tokens := b.tokens - cost * SCALE) else b
  }

  /** The bucket of a key just before it is charged, or none when the key was refused. */
  function Ready(s: Store, cap: nat, key: string, rate: int, burst: int, t: int): (Store, bool) {
    var u := Tick(s, t);
    if key in u.buckets then (u.(buckets := u.buckets[key := Refilled(u.buckets[key], t, rate, burst)]), true)
    else
      var a := Admit(u, cap, t);
      if a.1 then (a.0.(buckets := a.0.buckets[key := Refilled(Bucket(burst * SCALE, t, rate, burst), t, rate, burst)]), true)
      else (a.0, false)
  }

  function Adjusted(b: Bucket, delta: int, burst: int): Bucket {
    b.(tokens := Min(burst * SCALE, b.tokens + delta * SCALE))
  }

  /** Tokens a key could spend at `t`; an absent bucket is a full one. */
  function Level(m: Buckets, key: string, rate: int, burst: int, t: int): int {
    if key in m then Min(burst * SCALE, m[key].tokens + Refill(t - m[key].last, rate)) else burst * SCALE
  }

  /** Burst capacity in use, rounded to the nearest token. */
  function UsedTokens(level: int, burst: int): int {
    (Max(0, burst * SCALE - level) + SCALE / 2) / SCALE
  }

  /** What is in use is reported to the nearest token. */
  lemma {:induction false} UsedIsNearest(level: int, burst: int)
    ensures var used, exact := UsedTokens(level, burst), Max(0, burst * SCALE - level);
            -SCALE <= 2 * (used * SCALE - exact) <= SCALE && 0 <= used
  {
    var exact := Max(0, burst * SCALE - level);
    var q := (exact + SCALE / 2) / SCALE;
    assert q * SCALE <= exact + SCALE / 2 < q * SCALE + SCALE;
  }

  // ---- operations, as values -------------------------------------------------------------------------

  datatype Op =
    | AllowRate(key: string, cost: int, rate: int, burst: int)
    | AdjustRate(key: string, delta: int, burst: int)
    | RateUsed(key: string, rate: int, burst: int)
    | CheckQuota(key: string, estimate: int, limit: int, window: int)
    | DebitQuota(key: string, actual: int, window: int)
    | QuotaUsed(key: string)

  datatype Answer = Yes | No | Done | Tokens(n: int)

  /** The live window of a quota key; its lookup precedes the sweep, so a rollover is never an admission. */
  function Current(s: Store, cap: nat, key: string, window: int, t: int): (Store, bool) {
    var u := Tick(s, t);
    if key in s.quotas && t < s.quotas[key].end then (u, true)
    else if key in s.quotas then (u.(quotas := u.quotas[key := Quota(0, t + window)]), true)
    else
      var a := Admit(u, cap, t);
      if a.1 then (a.0.(quotas := a.0.quotas[key := Quota(0, t + window)]), true) else (a.0, false)
  }

  function StepStore(s: Store, cap: nat, t: int, op: Op): Store {
    match op
    case AllowRate(key, cost, rate, burst) =>
      if rate <= 0 then s
      else
        var r := Ready(s, cap, key, rate, burst, t);
        if r.1 then r.0.(buckets := r.0.buckets[key := Charged(r.0.buckets[key], cost)]) else r.0
    case AdjustRate(key, delta, burst) =>
      if key in s.buckets then s.(buckets := s.buckets[key := Adjusted(s.buckets[key], delta, burst)]) else s
    case RateUsed(_, _, _) => s
    case CheckQuota(key, _, limit, window) => if limit <= 0 then s else Current(s, cap, key, window, t).0
    case DebitQuota(key, actual, window) =>
      var r := Current(s, cap, key, window, t);
      if r.1
      then r.0.(quotas := r.0.quotas[key := r.0.quotas[key].(used := Wrap64(r.0.quotas[key].used + actual))]) else r.0
    case QuotaUsed(_) => s
  }

  function StepAnswer(s: Store, cap: nat, t: int, op: Op): Answer {
    match op
    case AllowRate(key, cost, rate, burst) =>
      if rate <= 0 then Yes
      else
        var r := Ready(s, cap, key, rate, burst, t);
        if r.1 && r.0.buckets[key].tokens >= cost * SCALE then Yes else No
    case AdjustRate(_, _, _) => Done
    case RateUsed(key, rate, burst) =>
      Tokens(if rate <= 0 || key !in s.buckets then 0 else UsedTokens(Level(s.buckets, key, rate, burst, t), burst))
    case CheckQuota(key, estimate, limit, window) =>
      if limit <= 0 then Yes
      else
        var r := Current(s, cap, key, window, t);
        if r.1 && !(Wrap64(r.0.quotas[key].used + estimate) > limit) then Yes else No
    case DebitQuota(_, _, _) => Done
    case QuotaUsed(key) => Tokens(if key in s.quotas && t < s.quotas[key].end then s.quotas[key].used else 0)
  }

  // ---- what one step does to one key's tokens ---------------------------------------------------------

  /** The key's limits are fixed: its bucket, if it has one, remembers exactly them. */
  predicate Fixed(m: Buckets, key: string, rate: int, burst: int) {
    key in m ==> m[key].rate == rate && m[key].burst == burst
  }

  /** The operation uses the key's fixed limits, and charges no negative cost to it. */
  predicate Conforms(op: Op, key: string, rate: int, burst: int) {
    && (op.AllowRate? && op.key == key ==> op.rate == rate && op.burst == burst && op.cost >= 0)
    && (op.AdjustRate? && op.key == key ==> op.burst == burst)
  }

  /** Sweeping leaves every level where it was. */
  lemma {:induction false} SweepKeepsLevel(m: Buckets, key: string, rate: int, burst: int, t: int)
    requires Fixed(m, key, rate, burst)
    ensures Level(KeptBuckets(m, t), key, rate, burst, t) == Level(m, key, rate, burst, t)
    ensures Fixed(KeptBuckets(m, t), key, rate, burst)
  {
    hide Refill;
  }

  lemma {:induction false} TickKeepsLevel(s: Store, key: string, rate: int, burst: int, t: int)
    requires Fixed(s.buckets, key, rate, burst)
    ensures Level(Tick(s, t).buckets, key, rate, burst, t) == Level(s.buckets, key, rate, burst, t)
    ensures Fixed(Tick(s, t).buckets, key, rate, burst)
  {
    hide Level;
    SweepKeepsLevel(s.buckets, key, rate, burst, t);
  }

  lemma {:induction false} AdmitKeepsLevel(s: Store, cap: nat, key: string, rate: int, burst: int, t: int)
    requires Fixed(s.buckets, key, rate, burst)
    ensures var u := Admit(s, cap, t).0;
            Level(u.buckets, key, rate, burst, t) == Level(s.buckets, key, rate, burst, t) && Fixed(u.buckets, key, rate, burst)
  {
    hide Level;
    SweepKeepsLevel(s.buckets, key, rate, burst, t);
  }

  lemma {:induction false} RefillZero(rate: int)
    ensures Refill(0, rate) == 0
  {
  }

  /** Bringing any key up to date moves no level, and leaves the touched bucket holding exactly its level. */
  lemma {:induction false} ReadyKeepsLevel(s: Store, cap: nat, touched: string, r: int, b: int, key: string,
                                           rate: int, burst: int, t: int)
    requires Fixed(s.buckets, key, rate, burst) && (touched == key ==> r == rate && b == burst)
    ensures var (u, ok) := Ready(s, cap, touched, r, b, t);
            && Fixed(u.buckets, key, rate, burst)
            && Level(u.buckets, key, rate, burst, t) == Level(s.buckets, key, rate, burst, t)
            && (ok ==> touched in u.buckets)
            && (ok && touched == key ==>
                  u.buckets[key].tokens == Level(s.buckets, key, rate, burst, t) && u.buckets[key].last == t)
  {
    hide Refill, Tick, Admit;
    TickKeepsLevel(s, key, rate, burst, t);
    AdmitKeepsLevel(Tick(s, t), cap, key, rate, burst, t);
    RefillZero(rate);
    RefillZero(r);
  }

  lemma {:induction false} QuotaKeepsBuckets(s: Store, cap: nat, touched: string, window: int, key: string,
                                             rate: int, burst: int, t: int)
    requires Fixed(s.buckets, key, rate, burst)
    ensures var u := Current(s, cap, touched, window, t).0;
            Fixed(u.buckets, key, rate, burst) && Level(u.buckets, key, rate, burst, t) == Level(s.buckets, key, rate, burst, t)
  {
    hide Level, KeptBuckets;
    TickKeepsLevel(s, key, rate, burst, t);
    AdmitKeepsLevel(Tick(s, t), cap, key, rate, burst, t);
  }

  ghost predicate StepEffect(op: Op, key: string, yes: bool, before: int, after: int) {
    if op.AllowRate? && op.key == key then
      if yes then after == before - op.cost * SCALE && 0 <= after else after == before
    else if op.AdjustRate? && op.key == key then after <= before + Max(0, op.delta) * SCALE
    else after == before
  }

  lemma {:induction false} ChargeEffect(s: Store, cap: nat, op: Op, key: string, rate: int, burst: int, t: int)
    requires op.AllowRate? && 0 < rate && Fixed(s.buckets, key, rate, burst) && Conforms(op, key, rate, burst)
    ensures Fixed(StepStore(s, cap, t, op).buckets, key, rate, burst)
    ensures StepEffect(op, key, StepAnswer(s, cap, t, op) == Yes,
                       Level(s.buckets, key, rate, burst, t), Level(StepStore(s, cap, t, op).buckets, key, rate, burst, t))
  {
    hide Refill, Ready;
    ReadyKeepsLevel(s, cap, op.key, op.rate, op.burst, key, rate, burst, t);
    RefillZero(rate);
  }

  lemma {:induction false} AdjustEffect(s: Store, cap: nat, op: Op, key: string, rate: int, burst: int, t: int)
    requires op.AdjustRate? && 0 < rate && Fixed(s.buckets, key, rate, burst) && Conforms(op, key, rate, burst)
    ensures Fixed(StepStore(s, cap, t, op).buckets, key, rate, burst)
    ensures StepEffect(op, key, false,
                       Level(s.buckets, key, rate, burst, t), Level(StepStore(s, cap, t, op).buckets, key, rate, burst, t))
  {
    hide Refill;
  }

  lemma {:induction false} StepEffects(s: Store, cap: nat, op: Op, key: string, rate: int, burst: int, t: int)
    requires 0 < rate && Fixed(s.buckets, key, rate, burst) && Conforms(op, key, rate, burst)
    ensures Fixed(StepStore(s, cap, t, op).buckets, key, rate, burst)
    ensures StepEffect(op, key, StepAnswer(s, cap, t, op) == Yes,
                       Level(s.buckets, key, rate, burst, t), Level(StepStore(s, cap, t, op).buckets, key, rate, burst, t))
  {
    hide Level, Ready, Current;
    match op
    case AllowRate(_, _, _, _) => ChargeEffect(s, cap, op, key, rate, burst, t);
    case AdjustRate(_, _, _) => AdjustEffect(s, cap, op, key, rate, burst, t);
    case CheckQuota(k, _, _, window) => QuotaKeepsBuckets(s, cap, k, window, key, rate, burst, t);
    case DebitQuota(k, _, window) => QuotaKeepsBuckets(s, cap, k, window, key, rate, burst, t);
    case RateUsed(_, _, _) =>
    case QuotaUsed(_) =>
  }

  /** Waiting refills at the fixed rate, never faster. */
  lemma {:induction false} WaitRefills(m: Buckets, key: string, rate: int, burst: int, t: int, t': int)
    requires 0 < rate && t <= t'
    ensures Level(m, key, rate, burst, t') <= Level(m, key, rate, burst, t) + Refill(t' - t, rate)
    ensures Level(m, key, rate, burst, t) <= burst * SCALE
  {
    hide Refill;
    RefillGrows(t' - t, rate);
    if key in m {
      RefillAdds(t - m[key].last, t' - t, rate);
    }
  }

  // ---- the rate bound over whole runs -----------------------------------------------------------------

  datatype Timed = Timed(t: int, op: Op)

  /** The store, the cost admitted so far for one key and the credit given back to it. */
  datatype Meter = Meter(s: Store, admitted: int, credit: int)

  function Run(s: Store, cap: nat, key: string, ops: seq<Timed>): Meter {
    if ops == [] then Meter(s, 0, 0)
    else
      var before, o := Run(s, cap, key, ops[..|ops| - 1]), ops[|ops| - 1];
      Meter(StepStore(before.s, cap, o.t, o.op),
            before.admitted + (if o.op.AllowRate? && o.op.key == key && StepAnswer(before.s, cap, o.t, o.op) == Yes
                               then o.op.cost else 0),
            before.credit + (if o.op.AdjustRate? && o.op.key == key then Max(0, o.op.delta) else 0))
  }

  ghost predicate Steady(ops: seq<Timed>, key: string, rate: int, burst: int, from: int) {
    && (forall i :: 0 <= i < |ops| ==> from <= ops[i].t && Conforms(ops[i].op, key, rate, burst))
    && (forall i, j :: 0 <= i < j < |ops| ==> ops[i].t <= ops[j].t)
  }

  /** Admitted cost plus what is left never exceeds the burst, the refill and the credit since the start. */
  ghost predicate Within(m: Meter, key: string, rate: int, burst: int, from: int, t: int) {
    && Fixed(m.s.buckets, key, rate, burst)
    && m.admitted * SCALE + Level(m.s.buckets, key, rate, burst, t) <= burst * SCALE + Refill(t - from, rate) + m.credit * SCALE
    && m.admitted * SCALE <= burst * SCALE + Refill(t - from, rate) + m.credit * SCALE
  }

  lemma {:induction false} WithinLater(m: Meter, key: string, rate: int, burst: int, from: int, t: int, t': int)
    requires Within(m, key, rate, burst, from, t) && 0 < rate && t <= t'
    ensures Within(m, key, rate, burst, from, t')
  {
    hide Refill, Level;
    RefillAdds(t - from, t' - t, rate);
    RefillGrows(t' - t, rate);
    WaitRefills(m.s.buckets, key, rate, burst, t, t');
  }

  lemma {:induction false} RunWithin(s: Store, cap: nat, key: string, rate: int, burst: int, ops: seq<Timed>, from: int)
    requires 0 < rate && 0 <= burst && Fixed(s.buckets, key, rate, burst) && Steady(ops, key, rate, burst, from)
    ensures Within(Run(s, cap, key, ops), key, rate, burst, from, if ops == [] then from else ops[|ops| - 1].t)
  {
    hide Refill, Level, StepStore, StepAnswer;
    RefillZero(rate);
    WaitRefills(s.buckets, key, rate, burst, from, from);
    if ops != [] {
      var n := |ops| - 1;
      RunWithin(s, cap, key, rate, burst, ops[..n], from);
      var before, o := Run(s, cap, key, ops[..n]), ops[n];
      WithinLater(before, key, rate, burst, from, if n == 0 then from else ops[n - 1].t, o.t);
      StepEffects(before.s, cap, o.op, key, rate, burst, o.t);
    }
  }

  /**
   The token-bucket bound, from any state of the store and over any interval: through sweeps, capacity
   refusals, true-ups and everything other keys do, the cost admitted for a key is at most its burst,
   the refill of the interval and the credit given back in it.
   */
  lemma {:induction false} AdmittedCostIsBounded(s: Store, cap: nat, key: string, rate: int, burst: int,
                                             ops: seq<Timed>, t1: int, t2: int)
    requires 0 < rate && 0 <= burst && Fixed(s.buckets, key, rate, burst)
    requires Steady(ops, key, rate, burst, t1) && t1 <= t2 && (ops != [] ==> ops[|ops| - 1].t <= t2)
    ensures var m := Run(s, cap, key, ops);
            m.admitted * 60_000_000_000 <= (burst + m.credit) * 60_000_000_000 + (t2 - t1) * rate
  {
    hide Level, StepStore, StepAnswer;
    RunWithin(s, cap, key, rate, burst, ops, t1);
    WithinLater(Run(s, cap, key, ops), key, rate, burst, t1, if ops == [] then t1 else ops[|ops| - 1].t, t2);
  }

  // ---- exactly what is let through ----------------------------------------------------------------------

  /** Between two times a bucket refills by exactly its rate per minute, up to its burst. */
  lemma {:induction false} LevelRefills(m: Buckets, key: string, rate: int, burst: int, t: int, t': int)
    requires 0 < rate && t <= t' && (key in m ==> m[key].last <= t)
    ensures Level(m, key, rate, burst, t') == Min(burst * 60_000_000_000, Level(m, key, rate, burst, t) + (t' - t) * rate)
  {
    RefillGrows(t' - t, rate);
    if key in m {
      RefillAdds(t - m[key].last, t' - t, rate);
    }
  }

  /** A charge is let through if and only if the key has, or can be given, a bucket and its tokens cover the cost. */
  lemma {:induction false} AllowedIff(s: Store, cap: nat, key: string, cost: int, rate: int, burst: int, t: int)
    requires 0 < rate && Fixed(s.buckets, key, rate, burst)
    ensures StepAnswer(s, cap, t, AllowRate(key, cost, rate, burst)) == Yes <==>
            Ready(s, cap, key, rate, burst, t).1 && Level(s.buckets, key, rate, burst, t) >= cost * 60_000_000_000
  {
    ReadyKeepsLevel(s, cap, key, rate, burst, key, rate, burst, t);
    hide Ready, Level;
  }

  /** Reading what is in use answers the distance from a full bucket, to the nearest token. */
  lemma {:induction false} UsedMeans(s: Store, cap: nat, key: string, rate: int, burst: int, t: int)
    requires 0 < rate && 0 <= burst
    ensures var a := StepAnswer(s, cap, t, RateUsed(key, rate, burst));
            var exact := burst * 60_000_000_000 - Level(s.buckets, key, rate, burst, t);
            a.Tokens? && 0 <= a.n && -60_000_000_000 <= 2 * (a.n * 60_000_000_000 - exact) <= 60_000_000_000
  {
    UsedIsNearest(Level(s.buckets, key, rate, burst, t), burst);
    hide UsedTokens, Refill;
  }

  /** Tokens used in a quota's window, as anyone reading it at `t` sees them. */
  function QuotaAt(m: Quotas, k: string, t: int): int {
    if k in m && t < m[k].end then m[k].used else 0
  }

  /**
   What one operation does to a quota: a debit adds its tokens, unless there is no room for the key; nothing else
   changes what anyone reads. A window opened now lasts exactly as long as the operation says.
   */
  lemma {:induction false} QuotaEffects(s: Store, cap: nat, op: Op, k: string, t: int)
    requires op.DebitQuota? || op.CheckQuota? ==> 0 < op.window
    ensures StepAnswer(s, cap, t, QuotaUsed(k)) == Tokens(QuotaAt(s.quotas, k, t))
    ensures var u := StepStore(s, cap, t, op);
            && QuotaAt(u.quotas, k, t)
               == (if op.DebitQuota? && op.key == k && k in u.quotas then Wrap64(QuotaAt(s.quotas, k, t) + op.actual)
                   else QuotaAt(s.quotas, k, t))
            && ((op.DebitQuota? || op.CheckQuota?) && op.key == k && k in u.quotas
                && (k !in s.quotas || s.quotas[k].end <= t) ==>
                  u.quotas[k].end == t + op.window || (op.CheckQuota? && op.limit <= 0))
  {
    assert StepAnswer(s, cap, t, QuotaUsed(k)) == Tokens(QuotaAt(s.quotas, k, t));
    hide Refill, KeptBuckets, KeptQuotas, Wrap64, Current, Ready, QuotaAt;
    match op
    case AllowRate(key, _, rate, burst) => ReadyKeepsQuota(s, cap, key, rate, burst, k, t);
    case CheckQuota(key, _, _, window) => CurrentQuota(s, cap, key, window, k, t);
    case DebitQuota(key, actual, window) =>
      CurrentQuota(s, cap, key, window, k, t);
      var r := Current(s, cap, key, window, t);
      if r.1 {
        QuotaUpdate(r.0.quotas, key, Wrap64(r.0.quotas[key].used + actual), k, t);
      }
    case _ =>
  }

  lemma {:induction false} QuotaUpdate(m: Quotas, key: string, v: int, k: string, t: int)
    requires key in m
    ensures QuotaAt(m[key := m[key].(used := v)], k, t) == if key == k && t < m[k].end then v else QuotaAt(m, k, t)
  {
  }

  lemma {:induction false} RoomKeepsQuota(s: Store, cap: nat, k: string, t: int)
    ensures QuotaAt(Tick(s, t).quotas, k, t) == QuotaAt(s.quotas, k, t)
    ensures QuotaAt(Admit(s, cap, t).0.quotas, k, t) == QuotaAt(s.quotas, k, t)
    ensures (k in Tick(s, t).quotas || k in Admit(s, cap, t).0.quotas ==> k in s.quotas)
  {
    hide Refill, KeptBuckets;
  }

  lemma {:induction false} ReadyKeepsQuota(s: Store, cap: nat, key: string, rate: int, burst: int, k: string, t: int)
    ensures QuotaAt(Ready(s, cap, key, rate, burst, t).0.quotas, k, t) == QuotaAt(s.quotas, k, t)
    ensures Ready(s, cap, key, rate, burst, t).1 ==> key in Ready(s, cap, key, rate, burst, t).0.buckets
  {
    hide Tick, Admit, QuotaAt, Refilled;
    RoomKeepsQuota(s, cap, k, t);
    RoomKeepsQuota(Tick(s, t), cap, k, t);
  }

  lemma {:induction false} CurrentQuota(s: Store, cap: nat, key: string, window: int, k: string, t: int)
    requires 0 < window
    ensures var r := Current(s, cap, key, window, t);
            && QuotaAt(r.0.quotas, k, t) == QuotaAt(s.quotas, k, t)
            && (r.1 <==> key in r.0.quotas)
            && (r.1 ==> t < r.0.quotas[key].end && r.0.quotas[key].used == QuotaAt(s.quotas, key, t))
            && (r.1 && (key !in s.quotas || s.quotas[key].end <= t) ==> r.0.quotas[key].end == t + window)
  {
    hide Tick, Admit;
    var u := Tick(s, t);
    RoomKeepsQuota(s, cap, k, t);
    RoomKeepsQuota(s, cap, key, t);
    RoomKeepsQuota(u, cap, k, t);
    RoomKeepsQuota(u, cap, key, t);
    if key in s.quotas && t < s.quotas[key].end {
      OpenQuotaStays(s, key, t);
    }
  }

  lemma {:induction false} OpenQuotaStays(s: Store, key: string, t: int)
    requires key in s.quotas && t < s.quotas[key].end
    ensures key in Tick(s, t).quotas && Tick(s, t).quotas[key] == s.quotas[key]
  {
  }

  /** A quota check says yes if and only if the limit is not positive, or there is room and the estimate still fits. */
  lemma {:induction false} QuotaAllowsIff(s: Store, cap: nat, key: string, estimate: int, limit: int, window: int,
                                          t: int)
    requires 0 < window
    ensures StepAnswer(s, cap, t, CheckQuota(key, estimate, limit, window)) == Yes <==>
            limit <= 0
            || (key in StepStore(s, cap, t, CheckQuota(key, estimate, limit, window)).quotas
                && Wrap64(QuotaAt(s.quotas, key, t) + estimate) <= limit)
  {
    hide Wrap64, Current, QuotaAt;
    CurrentQuota(s, cap, key, window, key, t);
  }
}
