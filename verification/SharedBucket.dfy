/**
 A team named like a key: its request-rate bucket is the key's own, and the key's limits refill it. So the names
 for which a team's rate holds, whatever its policy and whatever happens, are those that do not begin like a key's.
 */
module SharedBucket {
  import opened Ints
  import opened Options
  import opened BudgetKeys
  import opened Governance
  import opened AdmissionRuns
  import L = RateLimiter

  const TEAM: TeamPolicy := TeamPolicy(1, 1, 0, 0, "", 0, "", 0, "")
  const NO_LIMITS: KeyPolicy := KeyPolicy(0, 0, 0, 0)
  const FAST: KeyPolicy := KeyPolicy(2 * L.SCALE, 0, 0, 0)
  const EMPTY: L.Store := L.Store(map[], map[], 0, 0)

  /** Only this team has a policy: one request a minute. */
  ghost function Only(team: string): Config {
    Config(name => if name == team then Some(TEAM) else None, map[], (_, _) => None, (_, _) => false, "", false)
  }

  /** The team asks twice; in between a key of the same bucket name asks once, under its own fast limit. */
  function Three(team: string, keyID: string): seq<Request> {
    [Request(Subject(team, "", ""), NO_LIMITS, 0), Request(Subject("", keyID, ""), FAST, 0),
     Request(Subject(team, "", ""), NO_LIMITS, 0)]
  }

  function AskTimes(id: nat, n: nat, t: int): seq<Event> {
    if n == 0 then [] else [Ask(id, t)] + AskTimes(id, n - 1, t)
  }

  /** The gate is not in force, so it says yes and charges nothing. */
  predicate Free(op: L.Op) {
    (op.AllowRate? && op.rate <= 0) || (op.CheckQuota? && op.limit <= 0)
  }

  ghost predicate At(d: Desk, lim: L.Store, pc: seq<nat>) {
    d.lim == lim && d.pc == pc && d.out == seq(|pc|, _ => false)
  }

  /** Asking a gate that says yes. */
  lemma {:induction false} PassOne(cfg: Config, reqs: seq<Request>, cap: nat, lim: L.Store, events: seq<Event>, id: nat,
                                   t: int, s: L.Store, pc: seq<nat>)
    requires At(RunDesk(cfg, reqs, cap, lim, events), s, pc) && id < |reqs| && pc[id] < |Gates(cfg, reqs[id])|
    requires L.StepAnswer(s, cap, t, Gates(cfg, reqs[id])[pc[id]].op) == L.Yes
    ensures At(RunDesk(cfg, reqs, cap, lim, events + [Ask(id, t)]),
               L.StepStore(s, cap, t, Gates(cfg, reqs[id])[pc[id]].op), pc[id := pc[id] + 1])
  {
    hide L.StepStore, L.StepAnswer, Gates;
    assert (events + [Ask(id, t)])[..|events|] == events;
  }

  lemma {:induction false} PassOneFree(cfg: Config, reqs: seq<Request>, cap: nat, lim: L.Store, events: seq<Event>,
                                       id: nat, t: int, s: L.Store, pc: seq<nat>)
    requires At(RunDesk(cfg, reqs, cap, lim, events), s, pc) && id < |reqs| == |pc| && pc[id] < |Gates(cfg, reqs[id])|
    requires Free(Gates(cfg, reqs[id])[pc[id]].op)
    ensures At(RunDesk(cfg, reqs, cap, lim, events + [Ask(id, t)]), s, pc[id := pc[id] + 1])
  {
    FreeSaysYes(s, cap, t, Gates(cfg, reqs[id])[pc[id]].op);
    hide *;
    PassOne(cfg, reqs, cap, lim, events, id, t, s, pc);
  }

  lemma {:induction false} PassFree(cfg: Config, reqs: seq<Request>, cap: nat, lim: L.Store, events: seq<Event>,
                                    id: nat, n: nat, t: int, s: L.Store, pc: seq<nat>, to: nat)
    requires At(RunDesk(cfg, reqs, cap, lim, events), s, pc) && id < |reqs| == |pc|
    requires pc[id] + n == to <= |Gates(cfg, reqs[id])|
    requires forall k :: pc[id] <= k < to ==> Free(Gates(cfg, reqs[id])[k].op)
    ensures At(RunDesk(cfg, reqs, cap, lim, events + AskTimes(id, n, t)), s, pc[id := to])
    decreases n
  {
    hide *;
    if n == 0 {
      assert AskTimes(id, n, t) == [] by { AskTimesIs(id, n, t); }
      assert events + [] == events && pc[id := to] == pc;
    } else {
      AskTimesIs(id, n, t);
      assert events + AskTimes(id, n, t) == (events + [Ask(id, t)]) + AskTimes(id, n - 1, t);
      PassOneFree(cfg, reqs, cap, lim, events, id, t, s, pc);
      var next := pc[id := pc[id] + 1];
      PassFree(cfg, reqs, cap, lim, events + [Ask(id, t)], id, n - 1, t, s, next, to);
      assert next[id := to] == pc[id := to];
    }
  }

  lemma {:induction false} AskTimesIs(id: nat, n: nat, t: int)
    ensures AskTimes(id, n, t) == if n == 0 then [] else [Ask(id, t)] + AskTimes(id, n - 1, t)
  {
  }

  lemma {:induction false} FreeSaysYes(s: L.Store, cap: nat, t: int, op: L.Op)
    requires Free(op)
    ensures L.StepAnswer(s, cap, t, op) == L.Yes && L.StepStore(s, cap, t, op) == s
  {
  }

  /** The bucket through the three charges: emptied, refilled by the fast limit within a nanosecond, emptied again. */
  lemma {:induction false} ThreeCharges(key: string)
    ensures var a, b := L.AllowRate(key, 1, 1, 1), L.AllowRate(key, 1, 2 * L.SCALE, 2 * L.SCALE);
            var s1 := L.StepStore(EMPTY, 9, 0, a);
            var s2 := L.StepStore(s1, 9, 1, b);
            && L.StepAnswer(EMPTY, 9, 0, a) == L.Yes && L.StepAnswer(s1, 9, 1, b) == L.Yes
            && L.StepAnswer(s2, 9, 1, a) == L.Yes
  {
    var a, b := L.AllowRate(key, 1, 1, 1), L.AllowRate(key, 1, 2 * L.SCALE, 2 * L.SCALE);
    var s1 := L.StepStore(EMPTY, 9, 0, a);
    assert s1 == L.Store(map[key := L.Bucket(0, 0, 1, 1)], map[], 1, 0);
    var s2 := L.StepStore(s1, 9, 1, b);
    assert s2 == L.Store(map[key := L.Bucket(L.SCALE, 1, 2 * L.SCALE, 2 * L.SCALE)], map[], 2, 0);
  }

  /** The run: the team's first request at time 0, the key's at time 1, the team's second at time 1. */
  function Overlap(): seq<Event> {
    [Ask(0, 0)] + AskTimes(0, 4, 0) + [Ask(1, 1)] + AskTimes(1, 1, 1) + [Ask(2, 1)] + AskTimes(2, 4, 1)
  }

  lemma {:induction false} GatesOfThree(team: string, keyID: string)
    requires team == "key:" + keyID
    ensures var cfg, reqs, key := Only(team), Three(team, keyID), "rate:" + team;
            && |reqs| == 3 && |Gates(cfg, reqs[0])| == 5 && |Gates(cfg, reqs[1])| == 2 && reqs[2] == reqs[0]
            && Gates(cfg, reqs[0])[0].op == L.AllowRate(key, 1, 1, 1)
            && (forall k :: 1 <= k < 5 ==> Free(Gates(cfg, reqs[0])[k].op))
            && Gates(cfg, reqs[1])[0].op == L.AllowRate(key, 1, 2 * L.SCALE, 2 * L.SCALE) && Free(Gates(cfg, reqs[1])[1].op)
  {
    assert team != "" && team[0] == 'k';
    assert "rate:" + team == "rate:key:" + keyID;
  }

  lemma {:induction false} AtStart(cfg: Config, reqs: seq<Request>)
    requires |reqs| == 3
    ensures At(RunDesk(cfg, reqs, 9, EMPTY, []), EMPTY, [0, 0, 0])
  {
  }

  /** The first two requests get through. */
  lemma {:induction false} FirstTwo(cfg: Config, reqs: seq<Request>, s1: L.Store, s2: L.Store, a: L.Op, b: L.Op)
    requires |reqs| == 3 && |Gates(cfg, reqs[0])| == 5 && |Gates(cfg, reqs[1])| == 2
    requires At(RunDesk(cfg, reqs, 9, EMPTY, []), EMPTY, [0, 0, 0])
    requires Gates(cfg, reqs[0])[0].op == a && Gates(cfg, reqs[1])[0].op == b
    requires L.StepAnswer(EMPTY, 9, 0, a) == L.Yes && L.StepStore(EMPTY, 9, 0, a) == s1
    requires L.StepAnswer(s1, 9, 1, b) == L.Yes && L.StepStore(s1, 9, 1, b) == s2
    requires (forall k :: 1 <= k < 5 ==> Free(Gates(cfg, reqs[0])[k].op)) && Free(Gates(cfg, reqs[1])[1].op)
    ensures At(RunDesk(cfg, reqs, 9, EMPTY, [Ask(0, 0)] + AskTimes(0, 4, 0) + [Ask(1, 1)] + AskTimes(1, 1, 1)), s2, [5, 2, 0])
  {
    hide *;
    PassOne(cfg, reqs, 9, EMPTY, [], 0, 0, EMPTY, [0, 0, 0]);
    assert [] + [Ask(0, 0)] == [Ask(0, 0)] && [0, 0, 0][0 := 1] == [1, 0, 0] && [1, 0, 0][0 := 5] == [5, 0, 0];
    PassFree(cfg, reqs, 9, EMPTY, [Ask(0, 0)], 0, 4, 0, s1, [1, 0, 0], 5);
    var e2 := [Ask(0, 0)] + AskTimes(0, 4, 0);
    PassOne(cfg, reqs, 9, EMPTY, e2, 1, 1, s1, [5, 0, 0]);
    assert [5, 0, 0][1 := 1] == [5, 1, 0] && [5, 1, 0][1 := 2] == [5, 2, 0];
    PassFree(cfg, reqs, 9, EMPTY, e2 + [Ask(1, 1)], 1, 1, 1, s2, [5, 1, 0], 2);
  }

  lemma {:induction false} OverlapIs()
    ensures Overlap() == [Ask(0, 0)] + AskTimes(0, 4, 0) + [Ask(1, 1)] + AskTimes(1, 1, 1) + [Ask(2, 1)] + AskTimes(2, 4, 1)
  {
  }

  /** All three requests get through. */
  lemma {:induction false} AllGetThrough(team: string, keyID: string)
    requires team == "key:" + keyID
    ensures var cfg, reqs := Only(team), Three(team, keyID);
            var d := RunDesk(cfg, reqs, 9, EMPTY, Overlap());
            d.pc == [5, 2, 5] && d.out == [false, false, false]
  {
    hide *;
    var cfg, reqs, key := Only(team), Three(team, keyID), "rate:" + team;
    var a, b := L.AllowRate(key, 1, 1, 1), L.AllowRate(key, 1, 2 * L.SCALE, 2 * L.SCALE);
    var s1 := L.StepStore(EMPTY, 9, 0, a);
    var s2 := L.StepStore(s1, 9, 1, b);
    var s3 := L.StepStore(s2, 9, 1, a);
    GatesOfThree(team, keyID);
    ThreeCharges(key);
    AtStart(cfg, reqs);
    FirstTwo(cfg, reqs, s1, s2, a, b);
    var e4 := [Ask(0, 0)] + AskTimes(0, 4, 0) + [Ask(1, 1)] + AskTimes(1, 1, 1);
    PassOne(cfg, reqs, 9, EMPTY, e4, 2, 1, s2, [5, 2, 0]);
    assert [5, 2, 0][2 := 1] == [5, 2, 1] && [5, 2, 1][2 := 5] == [5, 2, 5];
    PassFree(cfg, reqs, 9, EMPTY, e4 + [Ask(2, 1)], 2, 4, 1, s3, [5, 2, 1], 5);
    OverlapIs();
    MeansAt(RunDesk(cfg, reqs, 9, EMPTY, Overlap()), s3, [5, 2, 5]);
  }

  lemma {:induction false} MeansAt(d: Desk, s: L.Store, pc: seq<nat>)
    requires At(d, s, pc)
    ensures d.pc == pc && d.out == seq(|pc|, _ => false)
  {
  }

  /** The bound of a team's request rate, for a run from an empty limiter. */
  ghost predicate RateHolds(cfg: Config, reqs: seq<Request>, cap: nat, events: seq<Event>, team: string, t1: int,
                            t2: int) {
    Orderly(events, t1, t2) && PolicyOf(cfg, team).Some? && 0 < PolicyOf(cfg, team).value.ratePerMin ==>
      var p, d := PolicyOf(cfg, team).value, RunDesk(cfg, reqs, cap, EMPTY, events);
      AdmittedSum(cfg, reqs, d, (r: Request) => if r.s.team == team then 1 else 0, |reqs|) * 60_000_000_000
      <= Max(p.rateBurst, 1) * 60_000_000_000 + (t2 - t1) * p.ratePerMin
  }

  lemma {:induction false} Overruns(team: string, keyID: string)
    requires team == "key:" + keyID
    ensures !RateHolds(Only(team), Three(team, keyID), 9, Overlap(), team, 0, 1)
  {
    var cfg, reqs := Only(team), Three(team, keyID);
    var d := RunDesk(cfg, reqs, 9, EMPTY, Overlap());
    var weight := (r: Request) => if r.s.team == team then 1 else 0;
    GatesOfThree(team, keyID);
    AllGetThrough(team, keyID);
    hide RunDesk, Gates;
    OverlapIsOrderly();
    assert team[0] == 'k';
    SumsToTwo(cfg, reqs, d, weight);
  }

  lemma {:induction false} OverlapIsOrderly()
    ensures Orderly(Overlap(), 0, 1)
  {
    AskTimesAre(0, 4, 0);
    AskTimesAre(1, 1, 1);
    AskTimesAre(2, 4, 1);
    hide AskTimes;
    var early, late := [Ask(0, 0)] + AskTimes(0, 4, 0), [Ask(1, 1)] + AskTimes(1, 1, 1) + [Ask(2, 1)] + AskTimes(2, 4, 1);
    assert Overlap() == early + late;
    assert forall i :: 0 <= i < |early| ==> early[i].t == 0;
    assert forall i :: 0 <= i < |late| ==> late[i].t == 1;
  }

  lemma {:induction false} AskTimesAre(id: nat, n: nat, t: int)
    ensures forall i :: 0 <= i < |AskTimes(id, n, t)| ==> AskTimes(id, n, t)[i].t == t
  {
    if n > 0 {
      AskTimesAre(id, n - 1, t);
    }
  }

  lemma {:induction false} SumsToTwo(cfg: Config, reqs: seq<Request>, d: Desk, weight: Request -> int)
    requires |reqs| == 3 && Fits(d, reqs) && d.out == [false, false, false] && d.pc == [5, 2, 5]
    requires |Gates(cfg, reqs[0])| == 5 && |Gates(cfg, reqs[1])| == 2 && |Gates(cfg, reqs[2])| == 5
    requires weight(reqs[0]) == 1 && weight(reqs[1]) == 0 && weight(reqs[2]) == 1
    ensures AdmittedSum(cfg, reqs, d, weight, 3) == 2
  {
    hide Gates;
    assert AdmittedSum(cfg, reqs, d, weight, 1) == 1;
    assert AdmittedSum(cfg, reqs, d, weight, 2) == 1;
  }

  /**
   A team's request rate holds under every policy and in every run if and only if its name does not begin with
   the four characters that key buckets begin with.
   */
  lemma {:induction false} NameDecides(team: string)
    ensures (forall cfg, reqs, cap, events, t1, t2 :: RateHolds(cfg, reqs, cap, events, team, t1, t2))
            <==> !(4 <= |team| && team[..4] == "key:")
  {
    if 4 <= |team| && team[..4] == "key:" {
      assert team == "key:" + team[4..];
      Overruns(team, team[4..]);
    } else {
      forall cfg, reqs, cap, events, t1, t2
        ensures RateHolds(cfg, reqs, cap, events, team, t1, t2)
      {
        forall r: Request | r in reqs
          ensures team != "key:" + r.s.keyID
        {
          assert ("key:" + r.s.keyID)[..4] == "key:";
        }
        if Orderly(events, t1, t2) && PolicyOf(cfg, team).Some? && 0 < PolicyOf(cfg, team).value.ratePerMin {
          TeamRateHolds(cfg, reqs, cap, EMPTY, events, team, t1, t2);
        }
      }
    }
  }
}
