/**
 The data plane's heartbeat in durable mode. One goroutine runs `SyncOnce`; request handlers read the
 published fields at any moment in between. `trace` records what such a reader could see after every
 single store, so the order in which constraints, policy and validity are published is part of the claim.
 */
module Syncer {
  import opened Options
  import opened PolicyLatch

  const PROTOCOL: string := "escrow-v1"

  /** The authority's part of an answer; an absent list is not an empty one. */
  datatype AuthorityResponse = AuthorityResponse(
    protocol: string, generation: string, serverTime: int, policies: Option<seq<Doc>>, budgets: Option<seq<string>>)

  datatype SyncResponse = SyncResponse(generation: string, authority: Option<AuthorityResponse>, leases: nat)

  /** What the budget authority makes of a bundle; a failed apply may or may not have reached its journal. */
  datatype ApplyResult = Took | Failed(journaled: bool)

  /** Everything outside the process that can happen to one heartbeat. */
  datatype Exchange =
    | RequestFailed                                    // no request could be built or sent
    | Status(code: int)                                // answered, but not with 200
    | Undecodable
    | Answered(response: SyncResponse, result: ApplyResult, at: int)

  /** The digest of a document set, its budget definitions at a database time, and the order they are compared in. */
  datatype Definitions = Definitions(
    generationOf: seq<Doc> -> string, budgetsOf: (seq<Doc>, int) -> Option<seq<string>>, sorted: seq<string> -> seq<string>)

  /** A complete bundle: its generation is that of its documents, and its budgets are exactly those they define. */
  predicate Complete(d: Definitions, r: AuthorityResponse) {
    && r.protocol == PROTOCOL && r.policies.Some? && r.budgets.Some?
    && r.generation == d.generationOf(r.policies.value)
    && d.budgetsOf(r.policies.value, r.serverTime) == Some(d.sorted(r.budgets.value))
  }

  /**
   An answer a durable data plane may act on: a complete bundle of the answered generation, and no leases beside
   it.
   */
  predicate Acceptable(d: Definitions, r: SyncResponse) {
    r.authority.Some? && Complete(d, r.authority.value) && r.authority.value.generation == r.generation && r.leases == 0
  }

  /**
   An acceptable answer is determined by its documents and its time: it carries their generation under both names,
   exactly the budgets they define, the one protocol, and no leases.
   */
  lemma {:induction false} AcceptableIsDetermined(d: Definitions, r: SyncResponse, q: SyncResponse)
    requires Acceptable(d, r) && Acceptable(d, q)
    requires r.authority.value.policies == q.authority.value.policies
    requires r.authority.value.serverTime == q.authority.value.serverTime
    ensures r.generation == q.generation == d.generationOf(Documents(r)) && r.authority.value.generation == r.generation
    ensures r.authority.value.protocol == q.authority.value.protocol == "escrow-v1" && r.leases == q.leases == 0
    ensures r.authority.value.budgets.Some? && q.authority.value.budgets.Some?
    ensures d.sorted(r.authority.value.budgets.value) == d.sorted(q.authority.value.budgets.value)
  {
  }

  /** The bundle's documents. */
  function Documents(r: SyncResponse): seq<Doc> {
    if r.authority.Some? && r.authority.value.policies.Some? then r.authority.value.policies.value else []
  }

  /** The fields a concurrent reader consults, and the document set behind the snapshot. */
  datatype View = View(
    invalid: bool,
    authority: Option<string>,   // generation last applied by the budget authority
    published: Option<string>,   // generation of the policy snapshot in force
    docs: seq<Doc>,              // the distributed set it was made from
    lastSuccess: int)            // zero: never

  /** The snapshot in force is the one the authority applied, and it rejected none of its documents. */
  predicate Aligned(v: View) {
    v.published.Some? && v.published == v.authority && Rejected(v.docs, |v.docs|) == []
  }

  /** What one atomic look at the fields answers to "may governed requests be served?". */
  predicate Ready(v: View, now: int, maxAge: int) {
    !v.invalid && v.lastSuccess != 0 && (maxAge > 0 ==> now - v.lastSuccess <= maxAge)
  }

  /** The invariant of the fields: once a sync has succeeded, not-invalid means aligned. */
  predicate Sound(v: View) {
    !v.invalid && v.lastSuccess != 0 ==> Aligned(v)
  }

  /** The exchange ends with a published bundle. */
  predicate Succeeds(d: Definitions, x: Exchange) {
    && x.Answered? && Acceptable(d, x.response) && x.result.Took?
    && Rejected(Documents(x.response), |Documents(x.response)|) == []
  }

  /** The authority has answered, and not with a bundle that could be put into force. */
  predicate Withdraws(d: Definitions, x: Exchange) {
    (x.Status? && x.code in {401, 403, 409, 426}) || (x.Answered? && !Succeeds(d, x))
  }

  /** What two separate loads answer, the first of `invalid` and the second of the last success. */
  predicate ReadyAcross(seen: View, later: View, now: int, maxAge: int) {
    !seen.invalid && Ready(later.(invalid := false), now, maxAge)
  }

  /** Every view is sound, no success precedes the first sync, and success is recorded only when aligned. */
  ghost predicate SoundTrace(trace: seq<View>) {
    && trace != [] && trace[0].lastSuccess == 0
    && (forall i :: 0 <= i < |trace| ==> Sound(trace[i]))
    && (forall i :: 0 < i < |trace| && trace[i].lastSuccess != trace[i - 1].lastSuccess ==> Aligned(trace[i]))
  }

  class Syncer {
    const definitions: Definitions
    const store: Store
    var invalid: bool
    var authority: Option<string>
    var lastSuccess: int
    ghost var trace: seq<View>

    ghost function Now(): View
      reads this, store
    {
      View(invalid, authority, store.generation, store.distributed, lastSuccess)
    }

    ghost predicate Valid()
      reads this, store
    {
      SoundTrace(trace) && trace[|trace| - 1] == Now() && store.generationOf == definitions.generationOf
    }

    /** Every store since the first `n` views was seen with readiness withdrawn, and there was one. */
    ghost predicate InvalidFrom(n: nat)
      reads this
    {
      n < |trace| && forall i :: n <= i < |trace| ==> trace[i].invalid
    }

    /** A fresh process: nothing published, whatever the journal of a previous life still holds. */
    constructor (definitions: Definitions, journal: Option<string>)
      ensures Valid() && fresh(store) && this.definitions == definitions && Now() == View(false, journal, None, [], 0)
    {
      var s := new Store(definitions.generationOf);
      this.definitions, store := definitions, s;
      invalid, authority, lastSuccess := false, journal, 0;
      trace := [View(false, journal, None, [], 0)];
    }

    ghost method Record()
      requires SoundTrace(trace) && store.generationOf == definitions.generationOf && Sound(Now())
      requires lastSuccess != trace[|trace| - 1].lastSuccess ==> Aligned(Now())
      modifies this`trace
      ensures Valid() && trace == old(trace) + [Now()]
    {
      trace := trace + [Now()];
    }

    /** Withdraws readiness; whatever else is going on, the fields are sound while it is withdrawn. */
    method Invalidate()
      requires Valid()
      modifies this`invalid, this`trace
      ensures Valid() && invalid && trace == old(trace) + [Now()]
    {
      invalid := true;
      Record();
    }

    /** The comparisons that decide whether an answer is acted on. */
    method Validate(r: SyncResponse) returns (ok: bool)
      ensures ok <==> Acceptable(definitions, r)
    {
      if r.authority.None? {
        return false;
      }
      var a := r.authority.value;
      if a.protocol != PROTOCOL || a.policies.None? || a.budgets.None? {
        return false;
      }
      var generation := definitions.generationOf(a.policies.value);
      if a.generation != generation {
        return false;
      }
      var expected := definitions.budgetsOf(a.policies.value, a.serverTime);
      if expected.None? || expected.value != definitions.sorted(a.budgets.value) {
        return false;
      }
      ok := a.generation == r.generation && r.leases == 0;
    }

    /** One heartbeat, store by store, in the order the source performs them. */
    method SyncOnce(x: Exchange) returns (ok: bool)
      requires Valid()
      modifies this, store
      ensures Valid() && old(trace) <= trace
      ensures ok <==> Succeeds(definitions, x)
      ensures ok ==> Now() == View(false, Some(x.response.generation), Some(x.response.generation), Documents(x.response), x.at)
      ensures Withdraws(definitions, x) ==> lastSuccess == old(lastSuccess) && invalid && InvalidFrom(|old(trace)|)
      ensures !ok && !Withdraws(definitions, x) ==> Now() == old(Now()) && trace == old(trace)
    {
      hide SoundTrace, Rejected, Accepted, Complete, PolicyLatch.Applied;
      if x.RequestFailed? || x.Undecodable? {
        return false;
      }
      if x.Status? {
        if x.code == 401 || x.code == 403 || x.code == 409 || x.code == 426 {
          Invalidate();
        }
        return false;
      }
      var valid := Validate(x.response);
      if !valid {
        Invalidate();
        return false;
      }
      ok := Install(x.response, x.result, x.at);
    }

    /** Installs a validated bundle: constraints first, then the policies, then readiness. */
    method Install(r: SyncResponse, result: ApplyResult, at: int) returns (ok: bool)
      requires Valid() && Acceptable(definitions, r)
      modifies this, store
      ensures Valid() && old(trace) <= trace
      ensures ok <==> result.Took? && Rejected(Documents(r), |Documents(r)|) == []
      ensures ok ==> Now() == View(false, Some(r.generation), Some(r.generation), Documents(r), at)
      ensures !ok ==> invalid && lastSuccess == old(lastSuccess) && InvalidFrom(|old(trace)|)
    {
      hide SoundTrace, Rejected, Accepted, PolicyLatch.Applied;
      var bundle := r.authority.value;
      Invalidate();
      if result.Failed? {
        if result.journaled {
          authority := Some(bundle.generation);
          Record();
        }
        return false;
      }
      authority := Some(bundle.generation);
      Record();
      var rejected := store.ApplyWire(bundle.policies.value);
      Record();
      if |rejected| > 0 {
        Invalidate();
        return false;
      }
      invalid := false;
      Record();
      lastSuccess := at;
      Record();
      ok := true;
    }
  }

  /** The last exchange that decided anything withdrew readiness: exchange `a`, with no success since. */
  ghost predicate WithdrawnSince(d: Definitions, xs: seq<Exchange>, a: nat, n: nat)
    requires n <= |xs|
  {
    a < n && Withdraws(d, xs[a]) && forall b :: a < b < n ==> !Succeeds(d, xs[b])
  }

  ghost predicate NoSuccess(d: Definitions, xs: seq<Exchange>, n: nat)
    requires n <= |xs|
  {
    forall b :: 0 <= b < n ==> !Succeeds(d, xs[b])
  }

  /** The views from the end of exchange `a` on, up to the end of exchange `n`, are those after `ends[a]`. */
  ghost predicate Marks(ends: seq<nat>, n: nat, length: nat) {
    |ends| == n + 1 && ends[n] == length && forall a, b :: 0 <= a <= b <= n ==> ends[a] <= ends[b]
  }

  /** Through every stretch from a withdrawing exchange to the next success, no view is ready. */
  ghost predicate StaysWithdrawn(d: Definitions, xs: seq<Exchange>, n: nat, ends: seq<nat>, trace: seq<View>)
    requires n <= |xs| && Marks(ends, n, |trace|)
  {
    forall a, b, i :: 0 <= a < b <= n && WithdrawnSince(d, xs, a, b) && ends[a] <= i < ends[b] ==> trace[i].invalid
  }

  /**
   One more exchange. A view recorded during it lies in a stretch only if the exchange is the withdrawing one or
   a failure after it.
   */
  lemma {:induction false} WithdrawnMore(d: Definitions, xs: seq<Exchange>, n: nat, ends: seq<nat>, trace: seq<View>,
                                         more: seq<View>)
    requires n < |xs| && Marks(ends, n, |trace|) && StaysWithdrawn(d, xs, n, ends, trace)
    requires Withdraws(d, xs[n]) ==> forall i :: 0 <= i < |more| ==> more[i].invalid
    requires !Withdraws(d, xs[n]) && !Succeeds(d, xs[n]) ==> more == []
    ensures Marks(ends + [|trace + more|], n + 1, |trace + more|)
    ensures StaysWithdrawn(d, xs, n + 1, ends + [|trace + more|], trace + more)
  {
    hide Withdraws, Succeeds;
    var all, marks := trace + more, ends + [|trace + more|];
    assert forall a :: 0 <= a <= n ==> marks[a] == ends[a];
    forall a, b, i | 0 <= a < b <= n + 1 && WithdrawnSince(d, xs, a, b) && marks[a] <= i < marks[b]
      ensures all[i].invalid
    {
      if b <= n {
        assert trace[i].invalid;
      } else if i < |trace| {
        assert WithdrawnSince(d, xs, a, n);
        assert trace[i].invalid;
      } else {
        assert a == n || !Succeeds(d, xs[n]);
      }
    }
  }

  /** Readiness was withdrawn by an exchange, or at the start, with no success since. */
  ghost predicate Withdrawn(d: Definitions, xs: seq<Exchange>, n: nat, start: bool)
    requires n <= |xs|
  {
    (exists a :: WithdrawnSince(d, xs, a, n)) || (start && NoSuccess(d, xs, n))
  }

  /** Whether readiness is withdrawn is decided by the last exchange that decided anything. */
  lemma {:induction false} DecidedMore(d: Definitions, xs: seq<Exchange>, n: nat, start: bool)
    requires n < |xs|
    ensures Withdrawn(d, xs, n + 1, start)
            == if Succeeds(d, xs[n]) then false else if Withdraws(d, xs[n]) then true else Withdrawn(d, xs, n, start)
  {
    SucceedsOrWithdraws(d, xs[n]);
    hide Withdraws, Succeeds;
    if Withdraws(d, xs[n]) {
      assert WithdrawnSince(d, xs, n, n + 1);
    } else if a :| WithdrawnSince(d, xs, a, n) {
      assert !Succeeds(d, xs[n]) ==> WithdrawnSince(d, xs, a, n + 1);
    }
    var m := n + 1;
    if a: nat :| WithdrawnSince(d, xs, a, m) {
      assert a < n ==> WithdrawnSince(d, xs, a, n);
    }
  }

  lemma {:induction false} WithdrawnAtFirst(d: Definitions, xs: seq<Exchange>, start: bool, ends: seq<nat>,
                                            trace: seq<View>)
    requires Marks(ends, 0, |trace|)
    ensures Withdrawn(d, xs, 0, start) == start && StaysWithdrawn(d, xs, 0, ends, trace)
  {
  }

  lemma {:induction false} SucceedsOrWithdraws(d: Definitions, x: Exchange)
    ensures !(Succeeds(d, x) && Withdraws(d, x))
  {
  }

  /**
   Any run of heartbeats, whatever happens to each. At every intermediate store, ready means aligned. From an
   exchange in which the authority refused, or answered with a bundle that was not put into force, until the next
   success, no reader is told ready, not even one whose two loads lie apart. And readiness is withdrawn at the
   end only because of such an exchange, or because it was at the start.
   */
  method RunAll(s: Syncer, xs: seq<Exchange>, maxAge: int) returns (ghost ends: seq<nat>)
    requires s.Valid()
    modifies s, s.store
    ensures s.Valid() && old(s.trace) <= s.trace
    ensures forall i, now :: 0 <= i < |s.trace| && Ready(s.trace[i], now, maxAge) ==> Aligned(s.trace[i])
    ensures Marks(ends, |xs|, |s.trace|) && ends[0] == |old(s.trace)|
    ensures forall a, b :: 0 <= a < b <= |xs| && WithdrawnSince(s.definitions, xs, a, b) ==>
              forall i, j, now :: ends[a] <= i <= j < ends[b] ==> !ReadyAcross(s.trace[i], s.trace[j], now, maxAge)
    ensures s.invalid <==> Withdrawn(s.definitions, xs, |xs|, old(s.invalid))
  {
    hide Aligned, Withdraws, Succeeds, SoundTrace, Withdrawn, WithdrawnSince, StaysWithdrawn;
    ends := [|s.trace|];
    WithdrawnAtFirst(s.definitions, xs, s.invalid, ends, s.trace);
    for n := 0 to |xs|
      invariant s.Valid() && old(s.trace) <= s.trace
      invariant Marks(ends, n, |s.trace|) && ends[0] == |old(s.trace)|
      invariant StaysWithdrawn(s.definitions, xs, n, ends, s.trace)
      invariant s.invalid <==> Withdrawn(s.definitions, xs, n, old(s.invalid))
    {
      ghost var was := s.trace;
      var ok := s.SyncOnce(xs[n]);
      ghost var more := s.trace[|was|..];
      assert s.trace == was + more;
      WithdrawnMore(s.definitions, xs, n, ends, was, more);
      DecidedMore(s.definitions, xs, n, old(s.invalid));
      ends := ends + [|s.trace|];
    }
    ReadyIsAligned(s.trace, maxAge);
    NoneToldReady(s.definitions, xs, ends, s.trace, maxAge);
  }

  lemma {:induction false} NoneToldReady(d: Definitions, xs: seq<Exchange>, ends: seq<nat>, trace: seq<View>,
                                         maxAge: int)
    requires Marks(ends, |xs|, |trace|) && StaysWithdrawn(d, xs, |xs|, ends, trace)
    ensures forall a, b :: 0 <= a < b <= |xs| && WithdrawnSince(d, xs, a, b) ==>
              forall i, j, now :: ends[a] <= i <= j < ends[b] ==> !ReadyAcross(trace[i], trace[j], now, maxAge)
  {
    hide WithdrawnSince;
  }

  lemma {:induction false} ReadyIsAligned(trace: seq<View>, maxAge: int)
    requires SoundTrace(trace)
    ensures forall i, now :: 0 <= i < |trace| && Ready(trace[i], now, maxAge) ==> Aligned(trace[i])
  {
    hide Aligned;
  }

  /**
   A reader loads `invalid` and `lastSuccess` with two separate loads, while heartbeats go on in
   between. If the first load saw not-invalid and the second a success, then at some moment between
   them the published policy was the authority's own generation with nothing rejected.
   */
  lemma {:induction false} TornReadIsSound(trace: seq<View>, i: nat, j: nat)
    requires i <= j < |trace| && SoundTrace(trace)
    requires !trace[i].invalid && trace[j].lastSuccess != 0
    ensures exists n :: i <= n <= j && Aligned(trace[n])
  {
    hide Aligned;
    if trace[i].lastSuccess != 0 {
      assert Aligned(trace[i]);
    } else {
      var n := i;
      while trace[n].lastSuccess == 0
        invariant i <= n <= j && (n > i ==> trace[n - 1].lastSuccess == 0)
        decreases j - n
      {
        n := n + 1;
      }
      assert Aligned(trace[n]);
    }
  }

  /** The two-load check of a live syncer, over any stretch of its history. */
  method GovernanceReady(s: Syncer, i: nat, j: nat, seen: View, later: View, now: int,
                         maxAge: int) returns (ready: bool)
    requires s.Valid() && i <= j < |s.trace| && s.trace[i] == seen && s.trace[j] == later
    ensures ready <==> ReadyAcross(seen, later, now, maxAge)
    ensures ready <==> !seen.invalid && later.lastSuccess != 0 && (maxAge <= 0 || now - later.lastSuccess <= maxAge)
    ensures ready ==> exists n :: i <= n <= j && Aligned(s.trace[n])
    ensures ready && i == j ==> Aligned(later)
  {
    hide Aligned;
    if seen.invalid {
      return false;
    }
    var last := later.lastSuccess;
    if last == 0 {
      return false;
    }
    if maxAge > 0 && now - last > maxAge {
      return false;
    }
    TornReadIsSound(s.trace, i, j);
    ready := true;
  }
}
