/**
 Any number of admissions and settlements at once. The governor holds no lock of its own, so what interleaves is
 single limiter operations: each event below is one of them, or a request leaving for another reason.
 */
module AdmissionRuns {
  import opened Ints
  import opened Options
  import opened BudgetKeys
  import opened Governance
  import BudgetStore
  import L = RateLimiter

  datatype Request = Request(s: Subject, kp: KeyPolicy, estimate: int)

  /** What a settlement books with the limiter, one operation at a time. */
  datatype Booking = Quota | TeamTokensBack | KeyTokensBack

  datatype Event =
    | Ask(id: nat, t: int)      // request `id` asks its next gate
    | Leave(id: nat, t: int)    // it is denied elsewhere: by a lease or a budget
    | Settle(s: Subject, kp: KeyPolicy, estimated: int, actual: int, booking: Booking, t: int)

  /** The gates of an admission in order: the team's, if it has a policy, and the key's. */
  function Gates(cfg: Config, r: Request): seq<Gate> {
    (match PolicyOf(cfg, r.s.team) case Some(p) => TeamGates(p, r.s.team, r.estimate) case None => [])
    + KeyGates(r.kp, r.s.keyID, r.estimate)
  }

  /** The operation a settlement performs, if that limit is in force. */
  function Booked(cfg: Config, e: Event): Option<L.Op>
    requires e.Settle?
  {
    var p := PolicyOf(cfg, e.s.team);
    match e.booking
    case Quota =>
      if p.Some? && p.value.tokensPerDay > 0 then Some(L.DebitQuota("quota:" + e.s.team, e.actual, DAY)) else None
    case TeamTokensBack =>
      if p.Some? && p.value.tokensPerMinute > 0
      then Some(L.AdjustRate("tpm:" + e.s.team, e.estimated - e.actual, p.value.tokensPerMinute)) else None
    case KeyTokensBack =>
      if e.kp.tokensPerMinute > 0
      then Some(L.AdjustRate("tpm:key:" + e.s.keyID, e.estimated - e.actual, e.kp.tokensPerMinute)) else None
  }

  /** The limiter, what was asked of it, and per request: how many gates it has passed and whether it is out. */
  datatype Desk = Desk(lim: L.Store, log: seq<L.Timed>, pc: seq<nat>, out: seq<bool>)

  predicate Fits(d: Desk, reqs: seq<Request>) {
    |d.pc| == |reqs| && |d.out| == |reqs|
  }

  function Logged(d: Desk, cap: nat, t: int, op: L.Op): Desk {
    d.(lim := L.StepStore(d.lim, cap, t, op), log := d.log + [L.Timed(t, op)])
  }

  function StepDesk(cfg: Config, reqs: seq<Request>, cap: nat, d: Desk, e: Event): (r: Desk)
    requires Fits(d, reqs)
    ensures Fits(r, reqs)
  {
    match e
    case Leave(id, _) => if id < |reqs| then d.(out := d.out[id := true]) else d
    case Settle(_, _, _, _, _, t) =>
      (match Booked(cfg, e) case Some(op) => Logged(d, cap, t, op) case None => d)
    case Ask(id, t) =>
      if id >= |reqs| || d.out[id] || d.pc[id] >= |Gates(cfg, reqs[id])| then d
      else
        var g := Gates(cfg, reqs[id])[d.pc[id]];
        if L.StepAnswer(d.lim, cap, t, g.op) == L.No && g.fatal
        then Logged(d, cap, t, g.op).(out := d.out[id := true])
        else Logged(d, cap, t, g.op).(pc := d.pc[id := d.pc[id] + 1])
  }

  function Opening(lim: L.Store, reqs: seq<Request>): Desk {
    Desk(lim, [], seq(|reqs|, _ => 0), seq(|reqs|, _ => false))
  }

  function RunDesk(cfg: Config, reqs: seq<Request>, cap: nat, lim: L.Store, events: seq<Event>): (d: Desk)
    ensures Fits(d, reqs)
  {
    if events == [] then Opening(lim, reqs)
    else StepDesk(cfg, reqs, cap, RunDesk(cfg, reqs, cap, lim, events[..|events| - 1]), events[|events| - 1])
  }

  /** Request `id` has passed every gate and has not been denied anywhere. */
  predicate Admitted(cfg: Config, reqs: seq<Request>, d: Desk, id: nat)
    requires Fits(d, reqs) && id < |reqs|
  {
    !d.out[id] && d.pc[id] >= |Gates(cfg, reqs[id])|
  }

  // ---- what one bucket is charged ---------------------------------------------------------------------

  /** What the gates a request has passed charged to a bucket. */
  function ChargedTo(gates: seq<Gate>, n: nat, key: string): int
    requires n <= |gates|
  {
    if n == 0 then 0
    else
      var op := gates[n - 1].op;
      ChargedTo(gates, n - 1, key)
      + if op.AllowRate? && op.key == key && op.rate > 0 && gates[n - 1].fatal then op.cost else 0
  }

  function Passed(cfg: Config, r: Request, pc: nat): nat {
    if pc <= |Gates(cfg, r)| then pc else |Gates(cfg, r)|
  }

  /** The same for the first `n` requests together. */
  function ChargedByAll(cfg: Config, reqs: seq<Request>, pc: seq<nat>, key: string, n: nat): int
    requires n <= |reqs| == |pc|
  {
    if n == 0 then 0
    else ChargedByAll(cfg, reqs, pc, key, n - 1)
         + ChargedTo(Gates(cfg, reqs[n - 1]), Passed(cfg, reqs[n - 1], pc[n - 1]), key)
  }

  lemma {:induction false} ChargedElsewhere(cfg: Config, reqs: seq<Request>, pc: seq<nat>, id: nat, v: nat, key: string,
                                            n: nat)
    requires n <= |reqs| == |pc| && id < |reqs|
    ensures ChargedByAll(cfg, reqs, pc[id := v], key, n)
            == ChargedByAll(cfg, reqs, pc, key, n)
               + if id < n then ChargedTo(Gates(cfg, reqs[id]), Passed(cfg, reqs[id], v), key)
                                - ChargedTo(Gates(cfg, reqs[id]), Passed(cfg, reqs[id], pc[id]), key)
                 else 0
  {
    hide Gates, ChargedTo, Passed;
    if n > 0 {
      ChargedElsewhere(cfg, reqs, pc, id, v, key, n - 1);
    }
  }

  /** Every use of the bucket, by any request or settlement, is with the same limits. */
  ghost predicate Uniform(cfg: Config, reqs: seq<Request>, events: seq<Event>, key: string, rate: int, burst: int) {
    && (forall r :: r in reqs ==> UniformGates(Gates(cfg, r), key, rate, burst))
    && (forall e :: e in events && e.Settle? && Booked(cfg, e).Some? ==> L.Conforms(Booked(cfg, e).value, key, rate, burst))
  }

  ghost predicate UniformGates(gates: seq<Gate>, key: string, rate: int, burst: int) {
    forall g :: g in gates ==> L.Conforms(g.op, key, rate, burst) && (g.op.AllowRate? || g.op.CheckQuota?)
  }

  /** The events happen in order, between two times. */
  ghost predicate Orderly(events: seq<Event>, t1: int, t2: int) {
    && t1 <= t2 && (forall i :: 0 <= i < |events| ==> t1 <= events[i].t <= t2)
    && (forall i, j :: 0 <= i < j < |events| ==> events[i].t <= events[j].t)
  }

  /** Tokens an event gives back to a bucket. */
  function Back(cfg: Config, e: Event, key: string): int {
    if e.Settle? && Booked(cfg, e).Some? && Booked(cfg, e).value.AdjustRate? && Booked(cfg, e).value.key == key
    then Max(0, Booked(cfg, e).value.delta) else 0
  }

  function GivenBack(cfg: Config, events: seq<Event>, key: string): int {
    if events == [] then 0
    else GivenBack(cfg, events[..|events| - 1], key) + Back(cfg, events[|events| - 1], key)
  }

  /** The desk's limiter is the run of its log, and the log accounts for every gate passed. */
  ghost predicate Accounted(cfg: Config, reqs: seq<Request>, cap: nat, lim: L.Store, d: Desk, key: string, rate: int,
                            burst: int, t1: int, t: int, back: int)
    requires Fits(d, reqs)
  {
    var m := L.Run(lim, cap, key, d.log);
    && d.lim == m.s && ChargedByAll(cfg, reqs, d.pc, key, |reqs|) <= m.admitted && m.credit == back
    && L.Steady(d.log, key, rate, burst, t1) && (d.log != [] ==> d.log[|d.log| - 1].t <= t)
  }

  lemma {:induction false} LogMore(lim: L.Store, cap: nat, key: string, rate: int, burst: int, log: seq<L.Timed>,
                                   o: L.Timed, t1: int)
    requires L.Steady(log, key, rate, burst, t1) && t1 <= o.t && (log != [] ==> log[|log| - 1].t <= o.t)
    requires L.Conforms(o.op, key, rate, burst)
    ensures L.Steady(log + [o], key, rate, burst, t1)
    ensures var m := L.Run(lim, cap, key, log);
            L.Run(lim, cap, key, log + [o])
            == L.Meter(L.StepStore(m.s, cap, o.t, o.op),
                       m.admitted + (if o.op.AllowRate? && o.op.key == key && L.StepAnswer(m.s, cap, o.t, o.op) == L.Yes
                                     then o.op.cost else 0),
                       m.credit + (if o.op.AdjustRate? && o.op.key == key then Max(0, o.op.delta) else 0))
  {
    hide L.StepStore, L.StepAnswer, L.Conforms;
    assert (log + [o])[..|log|] == log;
  }

  lemma {:induction false} AskAccounted(cfg: Config, reqs: seq<Request>, cap: nat, lim: L.Store, d: Desk, e: Event,
                                        key: string, rate: int, burst: int, t1: int, t: int, back: int)
    requires Fits(d, reqs) && Accounted(cfg, reqs, cap, lim, d, key, rate, burst, t1, t, back)
    requires e.Ask? && t <= e.t && t1 <= e.t && forall r :: r in reqs ==> UniformGates(Gates(cfg, r), key, rate, burst)
    ensures Accounted(cfg, reqs, cap, lim, StepDesk(cfg, reqs, cap, d, e), key, rate, burst, t1, e.t, back)
  {
    hide L.StepStore, L.StepAnswer, L.Conforms, L.Run, L.Steady, Gates;
    var id := e.id;
    if id < |reqs| && !d.out[id] && d.pc[id] < |Gates(cfg, reqs[id])| {
      var gates, n := Gates(cfg, reqs[id]), d.pc[id];
      assert reqs[id] in reqs && gates[n] in gates;
      LogMore(lim, cap, key, rate, burst, d.log, L.Timed(e.t, gates[n].op), t1);
      ChargedElsewhere(cfg, reqs, d.pc, id, n + 1, key, |reqs|);
      AnswersYesOrNo(d.lim, cap, e.t, gates[n].op);
      CostNotNegative(gates[n].op, key, rate, burst);
      hide ChargedByAll;
    }
  }

  lemma {:induction false} AnswersYesOrNo(s: L.Store, cap: nat, t: int, op: L.Op)
    requires op.AllowRate? || op.CheckQuota?
    ensures L.StepAnswer(s, cap, t, op) == L.Yes || L.StepAnswer(s, cap, t, op) == L.No
  {
    hide L.Ready, L.Current;
  }

  lemma {:induction false} CostNotNegative(op: L.Op, key: string, rate: int, burst: int)
    requires L.Conforms(op, key, rate, burst)
    ensures op.AllowRate? && op.key == key ==> 0 <= op.cost
  {
  }

  lemma {:induction false} SettleAccounted(cfg: Config, reqs: seq<Request>, cap: nat, lim: L.Store, d: Desk, e: Event,
                                           key: string, rate: int, burst: int, t1: int, t: int, back: int)
    requires Fits(d, reqs) && Accounted(cfg, reqs, cap, lim, d, key, rate, burst, t1, t, back)
    requires e.Settle? && t <= e.t && t1 <= e.t
    requires Booked(cfg, e).Some? ==> L.Conforms(Booked(cfg, e).value, key, rate, burst)
    ensures Accounted(cfg, reqs, cap, lim, StepDesk(cfg, reqs, cap, d, e), key, rate, burst, t1, e.t,
                      back + Back(cfg, e, key))
  {
    hide L.StepStore, L.StepAnswer, L.Conforms, L.Run, L.Steady, ChargedByAll;
    if Booked(cfg, e).Some? {
      LogMore(lim, cap, key, rate, burst, d.log, L.Timed(e.t, Booked(cfg, e).value), t1);
    }
  }

  lemma {:induction false} RunAccounted(cfg: Config, reqs: seq<Request>, cap: nat, lim: L.Store, events: seq<Event>,
                                        key: string, rate: int, burst: int, t1: int, t2: int)
    requires Uniform(cfg, reqs, events, key, rate, burst) && Orderly(events, t1, t2)
    ensures Accounted(cfg, reqs, cap, lim, RunDesk(cfg, reqs, cap, lim, events), key, rate, burst, t1,
                      if events == [] then t1 else events[|events| - 1].t, GivenBack(cfg, events, key))
  {
    hide StepDesk, Back, Accounted, Uniform;
    if events == [] {
      NothingYet(cfg, reqs, cap, lim, key, rate, burst, t1);
    } else {
      var n := |events| - 1;
      var front, e := events[..n], events[n];
      UniformFront(cfg, reqs, events, key, rate, burst);
      RunAccounted(cfg, reqs, cap, lim, front, key, rate, burst, t1, t2);
      StepAccounted(cfg, reqs, cap, lim, RunDesk(cfg, reqs, cap, lim, front), e, key, rate, burst, t1,
                    if front == [] then t1 else front[n - 1].t, GivenBack(cfg, front, key));
    }
  }

  lemma {:induction false} UniformFront(cfg: Config, reqs: seq<Request>, events: seq<Event>, key: string, rate: int,
                                        burst: int)
    requires Uniform(cfg, reqs, events, key, rate, burst) && events != []
    ensures Uniform(cfg, reqs, events[..|events| - 1], key, rate, burst)
    ensures Uniform(cfg, reqs, [events[|events| - 1]], key, rate, burst)
  {
    hide Booked, UniformGates, L.Conforms;
    assert forall e :: e in events[..|events| - 1] ==> e in events;
    assert events[|events| - 1] in events;
  }

  lemma {:induction false} StepAccounted(cfg: Config, reqs: seq<Request>, cap: nat, lim: L.Store, d: Desk, e: Event,
                                         key: string, rate: int, burst: int, t1: int, t: int, back: int)
    requires Fits(d, reqs) && Accounted(cfg, reqs, cap, lim, d, key, rate, burst, t1, t, back)
    requires Uniform(cfg, reqs, [e], key, rate, burst) && t <= e.t && t1 <= e.t
    ensures Accounted(cfg, reqs, cap, lim, StepDesk(cfg, reqs, cap, d, e), key, rate, burst, t1, e.t, back + Back(cfg, e, key))
  {
    hide StepDesk, Accounted, UniformGates, L.Conforms, Booked;
    assert e in [e];
    match e
    case Ask(_, _) => AskAccounted(cfg, reqs, cap, lim, d, e, key, rate, burst, t1, t, back);
    case Settle(_, _, _, _, _, _) => SettleAccounted(cfg, reqs, cap, lim, d, e, key, rate, burst, t1, t, back);
    case Leave(_, _) => LeaveAccounted(cfg, reqs, cap, lim, d, e, key, rate, burst, t1, t, back);
  }

  lemma {:induction false} LeaveAccounted(cfg: Config, reqs: seq<Request>, cap: nat, lim: L.Store, d: Desk, e: Event,
                                          key: string, rate: int, burst: int, t1: int, t: int, back: int)
    requires Fits(d, reqs) && Accounted(cfg, reqs, cap, lim, d, key, rate, burst, t1, t, back) && e.Leave? && t <= e.t
    ensures Accounted(cfg, reqs, cap, lim, StepDesk(cfg, reqs, cap, d, e), key, rate, burst, t1, e.t, back)
  {
  }

  lemma {:induction false} NothingYet(cfg: Config, reqs: seq<Request>, cap: nat, lim: L.Store, key: string, rate: int,
                                      burst: int, t1: int)
    ensures Accounted(cfg, reqs, cap, lim, Opening(lim, reqs), key, rate, burst, t1, t1, 0)
  {
    NothingCharged(cfg, reqs, key, |reqs|);
  }

  lemma {:induction false} NothingCharged(cfg: Config, reqs: seq<Request>, key: string, n: nat)
    requires n <= |reqs|
    ensures ChargedByAll(cfg, reqs, seq(|reqs|, _ => 0), key, n) == 0
  {
    if n > 0 {
      NothingCharged(cfg, reqs, key, n - 1);
    }
  }

  // ---- how many requests a limit lets through ---------------------------------------------------------

  /** The admitted among the first `n` requests, each counted with its weight. */
  ghost function AdmittedSum(cfg: Config, reqs: seq<Request>, d: Desk, weight: Request -> int, n: nat): int
    requires Fits(d, reqs) && n <= |reqs|
  {
    if n == 0 then 0
    else AdmittedSum(cfg, reqs, d, weight, n - 1) + if Admitted(cfg, reqs, d, n - 1) then weight(reqs[n - 1]) else 0
  }

  /** Who passes every gate is charged at least this much, and nobody less than nothing. */
  ghost predicate Charges(cfg: Config, reqs: seq<Request>, key: string, weight: Request -> int) {
    forall r :: r in reqs ==>
      && weight(r) <= ChargedTo(Gates(cfg, r), |Gates(cfg, r)|, key)
      && (forall n :: 0 <= n <= |Gates(cfg, r)| ==> 0 <= ChargedTo(Gates(cfg, r), n, key))
  }

  lemma {:induction false} AdmittedAreCharged(cfg: Config, reqs: seq<Request>, d: Desk, key: string,
                                              weight: Request -> int, n: nat)
    requires Fits(d, reqs) && n <= |reqs| && Charges(cfg, reqs, key, weight)
    ensures AdmittedSum(cfg, reqs, d, weight, n) <= ChargedByAll(cfg, reqs, d.pc, key, n)
  {
    hide Gates, ChargedTo;
    if n > 0 {
      AdmittedAreCharged(cfg, reqs, d, key, weight, n - 1);
      assert reqs[n - 1] in reqs;
      assert Passed(cfg, reqs[n - 1], d.pc[n - 1]) <= |Gates(cfg, reqs[n - 1])|;
    }
  }

  /** The token-bucket bound for whatever a bucket is charged with by admissions. */
  lemma {:induction false} BucketHolds(cfg: Config, reqs: seq<Request>, cap: nat, lim: L.Store, events: seq<Event>,
                                       key: string, rate: int, burst: int, t1: int, t2: int, weight: Request -> int)
    requires 0 < rate && 0 <= burst && L.Fixed(lim.buckets, key, rate, burst) && Orderly(events, t1, t2)
    requires Uniform(cfg, reqs, events, key, rate, burst) && Charges(cfg, reqs, key, weight)
    ensures AdmittedSum(cfg, reqs, RunDesk(cfg, reqs, cap, lim, events), weight, |reqs|) * L.SCALE
            <= (burst + GivenBack(cfg, events, key)) * L.SCALE + (t2 - t1) * rate
  {
    hide Uniform, RunDesk, Charges, AdmittedSum, ChargedByAll;
    hide L.Run, L.Fixed;
    var d := RunDesk(cfg, reqs, cap, lim, events);
    RunAccounted(cfg, reqs, cap, lim, events, key, rate, burst, t1, t2);
    AdmittedAreCharged(cfg, reqs, d, key, weight, |reqs|);
    L.AdmittedCostIsBounded(lim, cap, key, rate, burst, d.log, t1, t2);
  }

  /** Bucket names: the kind of limit is always told apart, a team from a key unless it is named like one. */
  lemma {:induction false} NamesDiffer(a: string, b: string)
    ensures "rate:" + a == "rate:" + b <==> a == b
    ensures "tpm:" + a == "tpm:" + b <==> a == b
    ensures "rate:key:" + a == "rate:key:" + b <==> a == b
    ensures "tpm:key:" + a == "tpm:key:" + b <==> a == b
    ensures "rate:" + a == "rate:key:" + b <==> a == "key:" + b
    ensures "tpm:" + a == "tpm:key:" + b <==> a == "key:" + b
    ensures "rate:" + a != "tpm:" + b && "rate:" + a != "tpm:key:" + b
    ensures "rate:key:" + a != "tpm:" + b && "rate:key:" + a != "tpm:key:" + b
  {
    assert ("rate:" + a)[5..] == a && ("rate:" + b)[5..] == b && ("tpm:" + a)[4..] == a && ("tpm:" + b)[4..] == b;
    assert ("rate:key:" + a)[9..] == a && ("rate:key:" + b)[9..] == b;
    assert ("tpm:key:" + a)[8..] == a && ("tpm:key:" + b)[8..] == b;
    assert "rate:key:" + b == "rate:" + ("key:" + b) && "tpm:key:" + b == "tpm:" + ("key:" + b);
    assert ("rate:" + ("key:" + b))[5..] == "key:" + b && ("tpm:" + ("key:" + b))[4..] == "key:" + b;
    assert ("rate:" + a)[0] == 'r' && ("rate:key:" + a)[0] == 'r' && ("tpm:" + b)[0] == 't' && ("tpm:key:" + b)[0] == 't';
  }

  /** What the gates of one request charge, gate by gate. */
  lemma {:induction false} GatesCharge(cfg: Config, r: Request, key: string)
    ensures var gates, p := Gates(cfg, r), PolicyOf(cfg, r.s.team);
            var team := if p.Some? && "rate:" + r.s.team == key && p.value.ratePerMin > 0 then 1 else 0;
            var tokens := if p.Some? && "tpm:" + r.s.team == key && p.value.tokensPerMinute > 0 then r.estimate else 0;
            var own := if "rate:key:" + r.s.keyID == key && r.kp.ratePerMin > 0 then 1 else 0;
            var mine := if "tpm:key:" + r.s.keyID == key && r.kp.tokensPerMinute > 0 then r.estimate else 0;
            && |gates| == (if p.Some? then 5 else 2)
            && ChargedTo(gates, |gates|, key) == team + tokens + own + mine
            && (0 <= r.estimate || (("tpm:" + r.s.team != key || p.None?) && "tpm:key:" + r.s.keyID != key) ==>
                  forall n :: 0 <= n <= |gates| ==> 0 <= ChargedTo(gates, n, key))
  {
    var gates := Gates(cfg, r);
    hide ChargedTo;
    ChargedNext(gates, 0, key);
    ChargedNext(gates, 1, key);
    if PolicyOf(cfg, r.s.team).Some? {
      ChargedNext(gates, 2, key);
      ChargedNext(gates, 3, key);
      ChargedNext(gates, 4, key);
    }
  }

  lemma {:induction false} ChargedNext(gates: seq<Gate>, n: nat, key: string)
    requires n < |gates|
    ensures ChargedTo(gates, 0, key) == 0
    ensures var op := gates[n].op;
            ChargedTo(gates, n + 1, key) == ChargedTo(gates, n, key)
              + if op.AllowRate? && op.key == key && op.rate > 0 && gates[n].fatal then op.cost else 0
  {
  }

  /** Every gate is one of the five, with the limits of its own policy. */
  lemma {:induction false} GatesConform(cfg: Config, r: Request, key: string, rate: int, burst: int)
    requires var p := PolicyOf(cfg, r.s.team);
             && (p.Some? && "rate:" + r.s.team == key ==> p.value.ratePerMin == rate && Max(p.value.rateBurst, 1) == burst)
             && (p.Some? && "tpm:" + r.s.team == key ==> p.value.tokensPerMinute == rate == burst && 0 <= r.estimate)
             && ("rate:key:" + r.s.keyID == key ==> r.kp.ratePerMin == rate == burst)
             && ("tpm:key:" + r.s.keyID == key ==> r.kp.tokensPerMinute == rate == burst && 0 <= r.estimate)
    ensures UniformGates(Gates(cfg, r), key, rate, burst)
  {
  }

  /**
   A team's request rate holds: of the requests that ask between two times, however they and everything else
   interleave, at most the burst and the refill of the interval are admitted. No key of the run may be named so
   that its bucket is the team's.
   */
  lemma {:induction false} TeamRateHolds(cfg: Config, reqs: seq<Request>, cap: nat, lim: L.Store, events: seq<Event>,
                                         team: string, t1: int, t2: int)
    requires Orderly(events, t1, t2) && PolicyOf(cfg, team).Some? && 0 < PolicyOf(cfg, team).value.ratePerMin
    requires forall r :: r in reqs ==> team != "key:" + r.s.keyID
    requires var p := PolicyOf(cfg, team).value; L.Fixed(lim.buckets, "rate:" + team, p.ratePerMin, Max(p.rateBurst, 1))
    ensures var p, d := PolicyOf(cfg, team).value, RunDesk(cfg, reqs, cap, lim, events);
            AdmittedSum(cfg, reqs, d, (r: Request) => if r.s.team == team then 1 else 0, |reqs|) * 60_000_000_000
            <= Max(p.rateBurst, 1) * 60_000_000_000 + (t2 - t1) * p.ratePerMin
  {
    hide Gates, ChargedTo, L.Fixed, L.Conforms, UniformGates;
    var p, key := PolicyOf(cfg, team).value, "rate:" + team;
    var weight := (r: Request) => if r.s.team == team then 1 else 0;
    forall r | r in reqs
      ensures UniformGates(Gates(cfg, r), key, p.ratePerMin, Max(p.rateBurst, 1))
      ensures weight(r) <= ChargedTo(Gates(cfg, r), |Gates(cfg, r)|, key)
      ensures forall n :: 0 <= n <= |Gates(cfg, r)| ==> 0 <= ChargedTo(Gates(cfg, r), n, key)
    {
      NamesDiffer(team, r.s.team);
      NamesDiffer(team, r.s.keyID);
      GatesCharge(cfg, r, key);
      GatesConform(cfg, r, key, p.ratePerMin, Max(p.rateBurst, 1));
    }
    RatesGetNothingBack(cfg, events, team, p.ratePerMin, Max(p.rateBurst, 1));
    BucketHolds(cfg, reqs, cap, lim, events, key, p.ratePerMin, Max(p.rateBurst, 1), t1, t2, weight);
  }

  /** No settlement touches a request rate. */
  lemma {:induction false} RatesGetNothingBack(cfg: Config, events: seq<Event>, name: string, rate: int, burst: int)
    ensures GivenBack(cfg, events, "rate:" + name) == 0
    ensures forall e :: e in events && e.Settle? && Booked(cfg, e).Some? ==>
              L.Conforms(Booked(cfg, e).value, "rate:" + name, rate, burst)
  {
    if events != [] {
      var n := |events| - 1;
      var e := events[n];
      RatesGetNothingBack(cfg, events[..n], name, rate, burst);
      assert events == events[..n] + [e];
      if e.Settle? {
        NamesDiffer(name, e.s.team);
        NamesDiffer(name, e.s.keyID);
      }
    }
  }

  /** The same for a key's own request rate, if no team with a policy is named like the key's bucket. */
  lemma {:induction false} KeyRateHolds(cfg: Config, reqs: seq<Request>, cap: nat, lim: L.Store, events: seq<Event>,
                                        keyID: string, rate: int, t1: int, t2: int)
    requires Orderly(events, t1, t2) && 0 < rate && L.Fixed(lim.buckets, "rate:key:" + keyID, rate, rate)
    requires forall r :: r in reqs && r.s.keyID == keyID ==> r.kp.ratePerMin == rate
    requires forall r :: r in reqs && r.s.team == "key:" + keyID ==> PolicyOf(cfg, r.s.team).None?
    ensures AdmittedSum(cfg, reqs, RunDesk(cfg, reqs, cap, lim, events),
                        (r: Request) => if r.s.keyID == keyID then 1 else 0, |reqs|) * 60_000_000_000
            <= rate * 60_000_000_000 + (t2 - t1) * rate
  {
    hide Gates, ChargedTo, L.Fixed, L.Conforms, UniformGates;
    var key := "rate:key:" + keyID;
    var weight := (r: Request) => if r.s.keyID == keyID then 1 else 0;
    forall r | r in reqs
      ensures UniformGates(Gates(cfg, r), key, rate, rate)
      ensures weight(r) <= ChargedTo(Gates(cfg, r), |Gates(cfg, r)|, key)
      ensures forall n :: 0 <= n <= |Gates(cfg, r)| ==> 0 <= ChargedTo(Gates(cfg, r), n, key)
    {
      NamesDiffer(r.s.team, keyID);
      NamesDiffer(r.s.keyID, keyID);
      NamesDiffer(keyID, r.s.keyID);
      NamesDiffer(keyID, r.s.team);
      GatesCharge(cfg, r, key);
      GatesConform(cfg, r, key, rate, rate);
    }
    assert "rate:" + ("key:" + keyID) == key;
    RatesGetNothingBack(cfg, events, "key:" + keyID, rate, rate);
    BucketHolds(cfg, reqs, cap, lim, events, key, rate, rate, t1, t2, weight);
  }

  /** What settlements of a team give back to it: the tokens estimated beyond those used. */
  function TeamBack(events: seq<Event>, team: string): int {
    if events == [] then 0
    else
      var e := events[|events| - 1];
      TeamBack(events[..|events| - 1], team)
      + if e.Settle? && e.booking.TeamTokensBack? && e.s.team == team then Max(0, e.estimated - e.actual) else 0
  }

  function KeyBack(events: seq<Event>, keyID: string): int {
    if events == [] then 0
    else
      var e := events[|events| - 1];
      KeyBack(events[..|events| - 1], keyID)
      + if e.Settle? && e.booking.KeyTokensBack? && e.s.keyID == keyID then Max(0, e.estimated - e.actual) else 0
  }

  /**
   A team's token rate holds: the tokens estimated for the admitted requests are at most a minute's worth, the
   refill of the interval, and what settlements in it gave back because less was used than estimated.
   */
  lemma {:induction false} TeamTokensHold(cfg: Config, reqs: seq<Request>, cap: nat, lim: L.Store, events: seq<Event>,
                                          team: string, t1: int, t2: int)
    requires Orderly(events, t1, t2) && PolicyOf(cfg, team).Some? && 0 < PolicyOf(cfg, team).value.tokensPerMinute
    requires forall r :: r in reqs ==> team != "key:" + r.s.keyID && (r.s.team == team ==> 0 <= r.estimate)
    requires forall e :: e in events && e.Settle? ==> team != "key:" + e.s.keyID
    requires var p := PolicyOf(cfg, team).value; L.Fixed(lim.buckets, "tpm:" + team, p.tokensPerMinute, p.tokensPerMinute)
    ensures var limit, d := PolicyOf(cfg, team).value.tokensPerMinute, RunDesk(cfg, reqs, cap, lim, events);
            AdmittedSum(cfg, reqs, d, (r: Request) => if r.s.team == team then r.estimate else 0, |reqs|) * 60_000_000_000
            <= (limit + TeamBack(events, team)) * 60_000_000_000 + (t2 - t1) * limit
  {
    hide Gates, ChargedTo, L.Fixed, L.Conforms, UniformGates;
    var limit, key := PolicyOf(cfg, team).value.tokensPerMinute, "tpm:" + team;
    var weight := (r: Request) => if r.s.team == team then r.estimate else 0;
    forall r | r in reqs
      ensures UniformGates(Gates(cfg, r), key, limit, limit)
      ensures weight(r) <= ChargedTo(Gates(cfg, r), |Gates(cfg, r)|, key)
      ensures forall n :: 0 <= n <= |Gates(cfg, r)| ==> 0 <= ChargedTo(Gates(cfg, r), n, key)
    {
      NamesDiffer(r.s.team, team);
      NamesDiffer(r.s.keyID, team);
      NamesDiffer(team, r.s.keyID);
      GatesCharge(cfg, r, key);
      GatesConform(cfg, r, key, limit, limit);
    }
    TeamTokensBackAre(cfg, events, team);
    BucketHolds(cfg, reqs, cap, lim, events, key, limit, limit, t1, t2, weight);
  }

  lemma {:induction false} TeamTokensBackAre(cfg: Config, events: seq<Event>, team: string)
    requires PolicyOf(cfg, team).Some? && 0 < PolicyOf(cfg, team).value.tokensPerMinute
    requires forall e :: e in events && e.Settle? ==> team != "key:" + e.s.keyID
    ensures GivenBack(cfg, events, "tpm:" + team) == TeamBack(events, team)
    ensures var limit := PolicyOf(cfg, team).value.tokensPerMinute;
            forall e :: e in events && e.Settle? && Booked(cfg, e).Some? ==>
              L.Conforms(Booked(cfg, e).value, "tpm:" + team, limit, limit)
  {
    if events != [] {
      var n := |events| - 1;
      var e := events[n];
      assert events == events[..n] + [e] && e in events;
      TeamTokensBackAre(cfg, events[..n], team);
      if e.Settle? {
        NamesDiffer(team, e.s.team);
        NamesDiffer(team, e.s.keyID);
      }
    }
  }

  /** The same for a key's own token rate. */
  lemma {:induction false} KeyTokensHold(cfg: Config, reqs: seq<Request>, cap: nat, lim: L.Store, events: seq<Event>,
                                         keyID: string, limit: int, t1: int, t2: int)
    requires Orderly(events, t1, t2) && 0 < limit && L.Fixed(lim.buckets, "tpm:key:" + keyID, limit, limit)
    requires forall r :: r in reqs && r.s.keyID == keyID ==> r.kp.tokensPerMinute == limit && 0 <= r.estimate
    requires forall r :: r in reqs && r.s.team == "key:" + keyID ==> PolicyOf(cfg, r.s.team).None?
    requires forall e :: e in events && e.Settle? ==>
               && (e.s.keyID == keyID ==> e.kp.tokensPerMinute == limit)
               && (e.s.team == "key:" + keyID ==> PolicyOf(cfg, e.s.team).None?)
    ensures AdmittedSum(cfg, reqs, RunDesk(cfg, reqs, cap, lim, events),
                        (r: Request) => if r.s.keyID == keyID then r.estimate else 0, |reqs|) * 60_000_000_000
            <= (limit + KeyBack(events, keyID)) * 60_000_000_000 + (t2 - t1) * limit
  {
    hide Gates, ChargedTo, L.Fixed, L.Conforms, UniformGates;
    var key := "tpm:key:" + keyID;
    var weight := (r: Request) => if r.s.keyID == keyID then r.estimate else 0;
    forall r | r in reqs
      ensures UniformGates(Gates(cfg, r), key, limit, limit)
      ensures weight(r) <= ChargedTo(Gates(cfg, r), |Gates(cfg, r)|, key)
      ensures forall n :: 0 <= n <= |Gates(cfg, r)| ==> 0 <= ChargedTo(Gates(cfg, r), n, key)
    {
      NamesDiffer(r.s.team, keyID);
      NamesDiffer(r.s.keyID, keyID);
      GatesCharge(cfg, r, key);
      GatesConform(cfg, r, key, limit, limit);
    }
    KeyTokensBackAre(cfg, events, keyID, limit);
    BucketHolds(cfg, reqs, cap, lim, events, key, limit, limit, t1, t2, weight);
  }

  lemma {:induction false} KeyTokensBackAre(cfg: Config, events: seq<Event>, keyID: string, limit: int)
    requires 0 < limit
    requires forall e :: e in events && e.Settle? ==>
               && (e.s.keyID == keyID ==> e.kp.tokensPerMinute == limit)
               && (e.s.team == "key:" + keyID ==> PolicyOf(cfg, e.s.team).None?)
    ensures GivenBack(cfg, events, "tpm:key:" + keyID) == KeyBack(events, keyID)
    ensures forall e :: e in events && e.Settle? && Booked(cfg, e).Some? ==>
              L.Conforms(Booked(cfg, e).value, "tpm:key:" + keyID, limit, limit)
  {
    if events != [] {
      var n := |events| - 1;
      var e := events[n];
      assert events == events[..n] + [e] && e in events;
      KeyTokensBackAre(cfg, events[..n], keyID, limit);
      if e.Settle? {
        NamesDiffer(e.s.team, keyID);
        NamesDiffer(e.s.keyID, keyID);
      }
    }
  }

  // ---- one call at a time ---------------------------------------------------------------------------

  /** The first request asks `n` gates in a row at the same time. */
  function Asks(n: nat, t: int): seq<Event> {
    if n == 0 then [] else Asks(n - 1, t) + [Ask(0, t)]
  }

  /** One request: the limiter it left behind, and the gates it has passed unless it is out. */
  ghost predicate Sole(d: Desk, lim: L.Store, n: nat, out: bool) {
    d.lim == lim && |d.pc| == 1 && d.out == [out] && (!out ==> d.pc[0] == n)
  }

  lemma {:induction false} AskNext(cfg: Config, r: Request, cap: nat, lim: L.Store, t: int, a: nat, s: L.Store)
    requires a < |Gates(cfg, r)| && Sole(RunDesk(cfg, [r], cap, lim, Asks(a, t)), s, a, false)
    ensures var g, d := Gates(cfg, r)[a], RunDesk(cfg, [r], cap, lim, Asks(a + 1, t));
            Sole(d, L.StepStore(s, cap, t, g.op), a + 1, L.StepAnswer(s, cap, t, g.op) == L.No && g.fatal)
  {
    hide L.StepStore, L.StepAnswer, Gates;
    assert Asks(a + 1, t)[..|Asks(a, t)|] == Asks(a, t);
  }

  /** Passing a stretch of gates is asking them in a row. */
  lemma {:induction false} PassingIsAsking(cfg: Config, r: Request, cap: nat, lim: L.Store, t: int, a: nat, b: nat,
                                           s: L.Store) returns (n: nat)
    requires a <= b <= |Gates(cfg, r)| && Sole(RunDesk(cfg, [r], cap, lim, Asks(a, t)), s, a, false)
    ensures var p := PassGates(s, cap, t, Gates(cfg, r)[a..b]);
            Sole(RunDesk(cfg, [r], cap, lim, Asks(n, t)), p.0, b, p.1.Some?) && (p.1.None? ==> n == b)
    decreases b - a
  {
    hide L.StepStore, L.StepAnswer, Gates, RunDesk, Sole;
    n := a;
    if a < b {
      var g := Gates(cfg, r)[a];
      assert Gates(cfg, r)[a..b][0] == g && Gates(cfg, r)[a..b][1..] == Gates(cfg, r)[a + 1..b];
      AskNext(cfg, r, cap, lim, t, a, s);
      if L.StepAnswer(s, cap, t, g.op) == L.No && g.fatal {
        n := a + 1;
        OutIsOut(RunDesk(cfg, [r], cap, lim, Asks(n, t)), L.StepStore(s, cap, t, g.op), a + 1, b);
      } else {
        n := PassingIsAsking(cfg, r, cap, lim, t, a + 1, b, L.StepStore(s, cap, t, g.op));
      }
    }
  }

  lemma {:induction false} OutIsOut(d: Desk, lim: L.Store, n: nat, m: nat)
    requires Sole(d, lim, n, true)
    ensures Sole(d, lim, m, true)
  {
  }

  lemma {:induction false} LeaveIsOut(cfg: Config, r: Request, cap: nat, lim: L.Store, t: int, n: nat, s: L.Store,
                                      a: nat)
    requires Sole(RunDesk(cfg, [r], cap, lim, Asks(n, t)), s, a, false)
    ensures Sole(RunDesk(cfg, [r], cap, lim, Asks(n, t) + [Leave(0, t)]), s, a, true)
  {
    assert (Asks(n, t) + [Leave(0, t)])[..|Asks(n, t)|] == Asks(n, t);
  }

  /**
   An admission that nothing interrupts is a run of asks at one time, ended early by a lease or a budget: the
   limiter it leaves behind is that run's, and it is admitted exactly when the run admits it.
   */
  lemma {:induction false} AdmissionIsAsking(cfg: Config, bud: BudgetStore.Store, lim: L.Store, cap: nat, e: Env,
                                             s: Subject, kp: KeyPolicy, estimate: int) returns (n: nat, leaves: bool)
    ensures var v, r := PreCheck(cfg, bud, lim, cap, e, s, kp, estimate), Request(s, kp, estimate);
            var d := RunDesk(cfg, [r], cap, lim, if leaves then Asks(n, e.t) + [Leave(0, e.t)] else Asks(n, e.t));
            d.lim == v.lim && (v.verdict.Allowed? <==> Admitted(cfg, [r], d, 0))
  {
    hide PassGates, TeamGates, KeyGates, CheckScope, BudgetOf, RunDesk;
    var r, p := Request(s, kp, estimate), PolicyOf(cfg, s.team);
    var own := if p.Some? then TeamGates(p.value, s.team, estimate) else [];
    var gates := Gates(cfg, r);
    assert gates == own + KeyGates(kp, s.keyID, estimate) && gates[0..|own|] == own;
    assert gates[|own|..|gates|] == KeyGates(kp, s.keyID, estimate);
    assert Sole(RunDesk(cfg, [r], cap, lim, Asks(0, e.t)), lim, 0, false) by { StartsIn(cfg, r, cap, lim, e.t); }
    n, leaves := 0, false;
    if cfg.leaseBlocked(s.team, e.t) {
      LeaveIsOut(cfg, r, cap, lim, e.t, 0, lim, 0);
      leaves := true;
      return;
    }
    n := PassingIsAsking(cfg, r, cap, lim, e.t, 0, |own|, lim);
    var g := PassGates(lim, cap, e.t, own);
    NoGates(lim, cap, e.t);
    if g.1.Some? {
      return;
    }
    var team := CheckScope(bud, e, BudgetOf(cfg, s, kp, TeamScope, Monthly), BudgetOf(cfg, s, kp, TeamScope, Daily));
    if team.1.Some? {
      LeaveIsOut(cfg, r, cap, lim, e.t, n, g.0, |own|);
      leaves := true;
      return;
    }
    n := PassingIsAsking(cfg, r, cap, lim, e.t, |own|, |gates|, g.0);
    var k := PassGates(g.0, cap, e.t, KeyGates(kp, s.keyID, estimate));
    if k.1.None? && !PreCheck(cfg, bud, lim, cap, e, s, kp, estimate).verdict.Allowed? {
      LeaveIsOut(cfg, r, cap, lim, e.t, n, k.0, |gates|);
      leaves := true;
    }
  }

  lemma {:induction false} StartsIn(cfg: Config, r: Request, cap: nat, lim: L.Store, t: int)
    ensures Sole(RunDesk(cfg, [r], cap, lim, Asks(0, t)), lim, 0, false)
  {
  }

  lemma {:induction false} NoGates(lim: L.Store, cap: nat, t: int)
    ensures PassGates(lim, cap, t, []) == (lim, None)
  {
  }

  /** A settlement that nothing interrupts is its three bookings at one time. */
  lemma {:induction false} SettlementIsBooking(cfg: Config, lim: L.Store, cap: nat, t: int, s: Subject, kp: KeyPolicy,
                                               estimated: int, actual: int)
    ensures var quota := Settle(s, kp, estimated, actual, Quota, t);
            var team, key := quota.(booking := TeamTokensBack), quota.(booking := KeyTokensBack);
            RunDesk(cfg, [], cap, lim, [quota, team, key]).lim == SettleLimiter(cfg, lim, cap, t, s, kp, estimated, actual)
  {
    hide L.StepStore;
    var quota := Settle(s, kp, estimated, actual, Quota, t);
    var team, key := quota.(booking := TeamTokensBack), quota.(booking := KeyTokensBack);
    assert [quota, team, key][..2] == [quota, team] && [quota, team][..1] == [quota] && [quota][..0] == [];
    assert RunDesk(cfg, [], cap, lim, [quota]) == StepDesk(cfg, [], cap, Opening(lim, []), quota);
    assert RunDesk(cfg, [], cap, lim, [quota, team]) == StepDesk(cfg, [], cap, RunDesk(cfg, [], cap, lim, [quota]), team);
  }

  /** A correction moves a bucket by exactly that much, up to its burst, unless a debit meets a full bucket. */
  lemma {:induction false} CorrectionMoves(s: L.Store, cap: nat, t: int, key: string, delta: int, rate: int, burst: int)
    requires 0 < rate && L.Fixed(s.buckets, key, rate, burst) && (key in s.buckets ==> s.buckets[key].last <= t)
    requires 0 <= delta || L.Level(s.buckets, key, rate, burst, t) < burst * L.SCALE
    ensures L.Level(L.StepStore(s, cap, t, L.AdjustRate(key, delta, burst)).buckets, key, rate, burst, t)
            == Min(burst * L.SCALE, L.Level(s.buckets, key, rate, burst, t) + delta * L.SCALE)
  {
    hide L.Refill;
    if key in s.buckets {
      L.RefillGrows(t - s.buckets[key].last, rate);
    }
  }

  /**
   Settling trues the token bucket of the team up: it goes up by what was estimated beyond what was used, and down
   by what was used beyond the estimate.
   */
  lemma {:induction false} SettlementTruesUp(cfg: Config, lim: L.Store, cap: nat, t: int, s: Subject, kp: KeyPolicy,
                                             estimated: int, actual: int)
    requires PolicyOf(cfg, s.team).Some? && 0 < PolicyOf(cfg, s.team).value.tokensPerMinute && s.team != "key:" + s.keyID
    requires var limit, key := PolicyOf(cfg, s.team).value.tokensPerMinute, "tpm:" + s.team;
             && L.Fixed(lim.buckets, key, limit, limit) && (key in lim.buckets ==> lim.buckets[key].last <= t)
             && (actual <= estimated || L.Level(lim.buckets, key, limit, limit, t) < limit * L.SCALE)
    ensures var limit, key := PolicyOf(cfg, s.team).value.tokensPerMinute, "tpm:" + s.team;
            L.Level(SettleLimiter(cfg, lim, cap, t, s, kp, estimated, actual).buckets, key, limit, limit, t)
            == Min(limit * L.SCALE, L.Level(lim.buckets, key, limit, limit, t) + (estimated - actual) * L.SCALE)
  {
    hide L.Level, L.Fixed, L.StepStore, L.StepAnswer;
    var p, key := PolicyOf(cfg, s.team).value, "tpm:" + s.team;
    var limit := p.tokensPerMinute;
    var debit := L.DebitQuota("quota:" + s.team, actual, DAY);
    var a := if p.tokensPerDay > 0 then L.StepStore(lim, cap, t, debit) else lim;
    L.StepEffects(lim, cap, debit, key, limit, limit, t);
    QuotaKeepsLast(lim, cap, debit, key, t);
    CorrectionMoves(a, cap, t, key, estimated - actual, limit, limit);
    NamesDiffer(s.team, s.keyID);
    OtherBucket(L.StepStore(a, cap, t, L.AdjustRate(key, estimated - actual, limit)), cap, t, "tpm:key:" + s.keyID,
                estimated - actual, kp.tokensPerMinute, key, limit);
  }

  lemma {:induction false} QuotaKeepsLast(s: L.Store, cap: nat, op: L.Op, key: string, t: int)
    requires op.DebitQuota? && (key in s.buckets ==> s.buckets[key].last <= t)
    ensures var u := L.StepStore(s, cap, t, op); key in u.buckets ==> u.buckets[key].last <= t
  {
  }

  lemma {:induction false} OtherBucket(s: L.Store, cap: nat, t: int, other: string, delta: int, burst: int, key: string,
                                       limit: int)
    requires other != key
    ensures L.Level(L.StepStore(s, cap, t, L.AdjustRate(other, delta, burst)).buckets, key, limit, limit, t)
            == L.Level(s.buckets, key, limit, limit, t)
  {
  }
}
