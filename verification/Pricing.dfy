/**
 Per-request cost in integer micro-USD: half-even settlement, its range-checked twin, and the upward
 rounded bound that is reserved before a request runs.
 */
module Pricing {
  import opened Ints
  import opened Options

  const MILLION: int := 1_000_000
  datatype Rate = Rate(input: int, output: int, cacheRead: int, cacheWrite5m: int, cacheWrite1h: int)

  datatype Usage = Usage(input: int, output: int, cacheRead: int, cacheWrite5m: int, cacheWrite1h: int)

  datatype PriceKey = PriceKey(provider: string, model: string)

  type Table = map<PriceKey, Rate>

  datatype Error = ErrAuthorityBound | ErrInvalidCost

  datatype Result = Ok(micros: int) | Err(error: Error)

  function Abs(x: int): int {
    if x < 0 then -x else x
  }

  // ---- rounding -------------------------------------------------------------------------------------

  /** Division by a million truncated toward zero, as the source's big integers divide. */
  function Quotient(n: int): int {
    if n >= 0 then n / MILLION else -((-n) / MILLION)
  }

  function Remainder(n: int): int {
    n - Quotient(n) * MILLION
  }

  /** The quotient, stepped up by one past the half, or at the half when it is odd. */
  function RoundHalfEven(n: int): int {
    var q, twice := Quotient(n), Abs(2 * Remainder(n));
    if twice > MILLION || (twice == MILLION && q % 2 == 1) then q + 1 else q
  }

  /** Rounded up: what is reserved. */
  function RoundUp(n: int): int {
    if Remainder(n) > 0 then Quotient(n) + 1 else Quotient(n)
  }

  /** Whether the step past the half is taken. */
  predicate StepsUp(n: int) {
    Abs(2 * Remainder(n)) > MILLION || (Abs(2 * Remainder(n)) == MILLION && Quotient(n) % 2 == 1)
  }

  /**
   Is the result a nearest integer, ties to even? For a nonnegative amount always. For a negative one
   the step goes up where it should go down, so the result is nearest exactly when no step is taken.
   */
  lemma {:induction false} NearestExactly(n: int)
    ensures 2 * Abs(RoundHalfEven(n) * MILLION - n) <= MILLION <==> n >= 0 || !StepsUp(n)
    ensures n >= 0 && 2 * Abs(RoundHalfEven(n) * MILLION - n) == MILLION ==> RoundHalfEven(n) % 2 == 0
  {
  }

  /** The wrong direction, on the amount nearest to zero that shows it. */
  lemma {:induction false} NegativeRoundsUp()
    ensures RoundHalfEven(-500_001) == 1
    ensures forall n :: -500_001 < n < 0 ==> RoundHalfEven(n) == 0
  {
  }

  /** Reserving upward dominates settling to the nearest, for any smaller amount. */
  lemma {:induction false} UpDominates(n: int, m: int)
    requires 0 <= n <= m
    ensures 0 <= RoundHalfEven(n) <= RoundUp(m)
    ensures 2 * Abs(RoundHalfEven(n) * MILLION - n) <= MILLION
  {
    NearestExactly(n);
  }

  // ---- rate lookup ----------------------------------------------------------------------------------

  const REGION_PREFIXES: seq<string> := ["global.", "us.", "eu.", "apac.", "us-gov."]

  predicate HasPrefix(s: string, p: string) {
    |p| <= |s| && s[..|p|] == p
  }

  /** The model after the first listed prefix that fits, or "" when none does. */
  function StripFirst(model: string, prefixes: seq<string>): string {
    if prefixes == [] then ""
    else if HasPrefix(model, prefixes[0]) then model[|prefixes[0]|..]
    else StripFirst(model, prefixes[1..])
  }

  function NormalizeModel(model: string): string {
    StripFirst(model, REGION_PREFIXES)
  }

  function Find(t: Table, k: PriceKey): Option<Rate> {
    if k in t then Some(t[k]) else None
  }

  /** Exact entry first, then the region-stripped model if there is anything left of it. */
  function Lookup(t: Table, provider: string, model: string): Option<Rate> {
    var exact := Find(t, PriceKey(provider, model));
    if exact.Some? then exact
    else if NormalizeModel(model) != "" then Find(t, PriceKey(provider, NormalizeModel(model)))
    else None
  }

  /** The range-checked path retries with whatever stripping left, even nothing. */
  function LookupUnguarded(t: Table, provider: string, model: string): Option<Rate> {
    var exact := Find(t, PriceKey(provider, model));
    if exact.Some? then exact else Find(t, PriceKey(provider, NormalizeModel(model)))
  }

  /** The two lookups differ exactly when an unknown model falls onto an entry for the empty model. */
  lemma {:induction false} LookupsAgreeExactly(t: Table, provider: string, model: string)
    ensures Lookup(t, provider, model) == LookupUnguarded(t, provider, model) <==>
            PriceKey(provider, model) in t || NormalizeModel(model) != "" || PriceKey(provider, "") !in t
  {
    hide NormalizeModel;
  }

  /**
   A table with an entry for the empty model prices every unknown, unprefixed model on one path and none on the
   other.
   */
  lemma {:induction false} UnknownModelIsPriced(provider: string, rate: Rate)
    ensures var t := map[PriceKey(provider, "") := rate];
            Lookup(t, provider, "new-model") == None && LookupUnguarded(t, provider, "new-model") == Some(rate)
  {
    NoPrefix();
  }

  lemma {:induction false} NoPrefix()
    ensures NormalizeModel("new-model") == ""
  {
    var m, p := "new-model", REGION_PREFIXES;
    assert p[0] == "global." && p[1] == "us." && p[2] == "eu." && p[3] == "apac." && p[4] == "us-gov." && m[0] == 'n';
    SkipsOthers(m, p, 5);
    assert p[5..] == [];
  }

  /**
   One row covers a model under every cross-region prefix, and an entry for the prefixed model itself comes
   first.
   */
  lemma {:induction false} RegionSharesRate(t: Table, provider: string, region: string, base: string)
    requires region in {"global.", "us.", "eu.", "apac.", "us-gov."} && base != ""
    ensures var own, shared := PriceKey(provider, region + base), PriceKey(provider, base);
            && (own in t ==> Lookup(t, provider, region + base) == Some(t[own]))
            && (own !in t && shared in t ==> Lookup(t, provider, region + base) == Some(t[shared]))
            && (own !in t && shared !in t ==> Lookup(t, provider, region + base) == None)
  {
    StripsRegion(region, base);
    hide NormalizeModel;
  }

  lemma {:induction false} StripsRegion(region: string, base: string)
    requires region in {"global.", "us.", "eu.", "apac.", "us-gov."}
    ensures NormalizeModel(region + base) == base
  {
    var m, p := region + base, REGION_PREFIXES;
    assert m[..|region|] == region && m[|region|..] == base && m[0] == region[0] && m[2] == region[2];
    assert p[0] == "global." && p[1] == "us." && p[2] == "eu." && p[3] == "apac." && p[4] == "us-gov.";
    var n: nat :| n < 5 && p[n] == region;
    assert forall k :: 0 <= k < n ==> p[k][0] != region[0] || p[k][2] != region[2];
    SkipsOthers(m, p, n);
    assert p[n..][0] == region;
  }

  lemma {:induction false} SkipsOthers(m: string, p: seq<string>, n: nat)
    requires n <= |p| && 3 <= |m| && forall k :: 0 <= k < n ==> 3 <= |p[k]| && (p[k][0] != m[0] || p[k][2] != m[2])
    ensures StripFirst(m, p) == StripFirst(m, p[n..])
  {
    if n == 0 {
      assert p[0..] == p;
    } else {
      SkipsOthers(m, p, n - 1);
      var q := p[n - 1..];
      assert q[1..] == p[n..] && q[0] == p[n - 1];
      assert !HasPrefix(m, q[0]);
    }
  }

  // ---- costs ----------------------------------------------------------------------------------------

  datatype Item = Item(count: int, rate: int)

  function Items(u: Usage, r: Rate): seq<Item> {
    [Item(u.input, r.input), Item(u.output, r.output), Item(u.cacheRead, r.cacheRead),
     Item(u.cacheWrite5m, r.cacheWrite5m), Item(u.cacheWrite1h, r.cacheWrite1h)]
  }

  /** Every input class may fill the whole window at once; output is bounded on its own. */
  function BoundItems(input: int, output: int, r: Rate): seq<Item> {
    [Item(input, r.input), Item(input, r.cacheRead), Item(input, r.cacheWrite5m), Item(input, r.cacheWrite1h),
     Item(output, r.output)]
  }

  function Cost(items: seq<Item>): int {
    if items == [] then 0
    else Cost(items[..|items| - 1]) + RoundHalfEven(items[|items| - 1].count * items[|items| - 1].rate)
  }

  function CostUp(items: seq<Item>): int {
    if items == [] then 0
    else CostUp(items[..|items| - 1]) + RoundUp(items[|items| - 1].count * items[|items| - 1].rate)
  }

  function Exact(items: seq<Item>): int {
    if items == [] then 0
    else Exact(items[..|items| - 1]) + items[|items| - 1].count * items[|items| - 1].rate
  }

  predicate NonNegative(items: seq<Item>) {
    forall i :: 0 <= i < |items| ==> 0 <= items[i].count && 0 <= items[i].rate
  }

  /** What the checked settlement answers. */
  function CheckedCost(t: Table, provider: string, model: string, u: Usage): Result {
    match LookupUnguarded(t, provider, model)
    case None => Err(ErrAuthorityBound)
    case Some(r) =>
      if !NonNegative(Items(u, r)) then Err(ErrInvalidCost)
      else if -MAX_INT64 - 1 <= Cost(Items(u, r)) <= MAX_INT64 then Ok(Cost(Items(u, r))) else Err(ErrInvalidCost)
  }

  /** What the reservation answers. */
  function AuthorityBound(t: Table, provider: string, model: string, input: int, output: int): Result {
    if input <= 0 || output <= 0 then Err(ErrAuthorityBound)
    else match Lookup(t, provider, model)
      case None => Err(ErrAuthorityBound)
      case Some(r) =>
        if exists i :: 0 <= i < 5 && BoundItems(input, output, r)[i].rate < 0 then Err(ErrAuthorityBound)
        else if -MAX_INT64 - 1 <= CostUp(BoundItems(input, output, r)) <= MAX_INT64
        then Ok(CostUp(BoundItems(input, output, r))) else Err(ErrAuthorityBound)
  }

  /**
   The checked settlement. What it charges is within 2.5 micro-USD of the sum of each count at its own rate; it
   fails exactly for an unknown model, a negative count or rate, or a total beyond int64.
   */
  method CostUSDMicrosChecked(t: Table, provider: string, model: string, u: Usage) returns (res: Result)
    ensures res == CheckedCost(t, provider, model, u)
    ensures LookupUnguarded(t, provider, model).None? <==> res == Err(ErrAuthorityBound)
    ensures LookupUnguarded(t, provider, model).Some? ==>
              var r := LookupUnguarded(t, provider, model).value;
              var sum := u.input * r.input + u.output * r.output + u.cacheRead * r.cacheRead
                         + u.cacheWrite5m * r.cacheWrite5m + u.cacheWrite1h * r.cacheWrite1h;
              && (res.Ok? ==> CountsAndRates(u, r) && Abs(res.micros * MILLION - sum) <= 2_500_000)
              && (res.Err? && CountsAndRates(u, r) ==> sum + 2_500_000 > MAX_INT64 * MILLION)
  {
    hide NormalizeModel, RoundHalfEven, CountsAndRates;
    if LookupUnguarded(t, provider, model).Some? {
      CheckedCostMeans(t, provider, model, u);
      ExactSums(u, LookupUnguarded(t, provider, model).value);
    }
    var r := Find(t, PriceKey(provider, model));
    if r.None? {
      r := Find(t, PriceKey(provider, NormalizeModel(model)));
    }
    if r.None? {
      return Err(ErrAuthorityBound);
    }
    var items, total := Items(u, r.value), 0;
    for i := 0 to |items|
      invariant total == Cost(items[..i])
      invariant forall j :: 0 <= j < i ==> 0 <= items[j].count && 0 <= items[j].rate
    {
      if items[i].count < 0 || items[i].rate < 0 {
        return Err(ErrInvalidCost);
      }
      assert items[..i + 1][..i] == items[..i];
      total := total + RoundHalfEven(items[i].count * items[i].rate);
    }
    assert items[..|items|] == items;
    if !(-MAX_INT64 - 1 <= total <= MAX_INT64) {
      return Err(ErrInvalidCost);
    }
    res := Ok(total);
  }

  /**
   The reservation: the whole window at every input rate and the whole output, less than five micro-USD above
   the exact amount and never below it.
   */
  method ReserveBound(t: Table, provider: string, model: string, input: int, output: int) returns (res: Result)
    ensures res == AuthorityBound(t, provider, model, input, output)
    ensures res.Ok? ==>
              && 0 < input && 0 < output && Lookup(t, provider, model).Some?
              && var r := Lookup(t, provider, model).value;
                 var sum := input * r.input + input * r.cacheRead + input * r.cacheWrite5m + input * r.cacheWrite1h
                            + output * r.output;
                 0 <= res.micros * MILLION - sum < 5_000_000
  {
    hide NormalizeModel, RoundUp;
    BoundMeans(t, provider, model, input, output);
    if input <= 0 || output <= 0 {
      return Err(ErrAuthorityBound);
    }
    var r := Lookup(t, provider, model);
    if r.None? {
      return Err(ErrAuthorityBound);
    }
    var items, total := BoundItems(input, output, r.value), 0;
    for i := 0 to |items|
      invariant total == CostUp(items[..i])
      invariant forall j :: 0 <= j < i ==> 0 <= items[j].rate
    {
      if items[i].rate < 0 {
        return Err(ErrAuthorityBound);
      }
      assert items[..i + 1][..i] == items[..i];
      total := total + RoundUp(items[i].count * items[i].rate);
    }
    assert items[..|items|] == items;
    if !(-MAX_INT64 - 1 <= total <= MAX_INT64) {
      return Err(ErrAuthorityBound);
    }
    res := Ok(total);
  }

  /** One class of tokens, as the unchecked path narrows it. */
  function MulDivRoundHalfEven(tokens: int, perMTok: int): int {
    if tokens == 0 || perMTok == 0 then 0 else Wrap64(RoundHalfEven(tokens * perMTok))
  }

  /** The unchecked settlement: every class and every addition narrowed to int64. */
  function WrappedCost(items: seq<Item>): int {
    if items == [] then 0
    else Wrap64(WrappedCost(items[..|items| - 1]) + MulDivRoundHalfEven(items[|items| - 1].count, items[|items| - 1].rate))
  }

  method CostUSDMicros(t: Table, provider: string, model: string, u: Usage) returns (cost: int, missing: bool)
    ensures missing <==> Lookup(t, provider, model).None?
    ensures missing ==> cost == 0
    ensures !missing ==> cost == WrappedCost(Items(u, Lookup(t, provider, model).value))
    ensures !missing ==>
              var r := Lookup(t, provider, model).value;
              var sum := u.input * r.input + u.output * r.output + u.cacheRead * r.cacheRead
                         + u.cacheWrite5m * r.cacheWrite5m + u.cacheWrite1h * r.cacheWrite1h;
              CountsAndRates(u, r) && sum + 2_500_000 <= MAX_INT64 * MILLION ==> Abs(cost * MILLION - sum) <= 2_500_000
  {
    hide NormalizeModel, RoundHalfEven, Wrap64, MulDivRoundHalfEven, CountsAndRates;
    var r := Lookup(t, provider, model);
    if r.None? {
      return 0, true;
    }
    UncheckedCostMeans(u, r.value);
    ghost var items := Items(u, r.value);
    missing := false;
    cost := 0;
    cost := Wrap64(cost + MulDivRoundHalfEven(u.input, r.value.input));
    WrappedNext(items, 0);
    cost := Wrap64(cost + MulDivRoundHalfEven(u.output, r.value.output));
    WrappedNext(items, 1);
    cost := Wrap64(cost + MulDivRoundHalfEven(u.cacheRead, r.value.cacheRead));
    WrappedNext(items, 2);
    cost := Wrap64(cost + MulDivRoundHalfEven(u.cacheWrite5m, r.value.cacheWrite5m));
    WrappedNext(items, 3);
    cost := Wrap64(cost + MulDivRoundHalfEven(u.cacheWrite1h, r.value.cacheWrite1h));
    WrappedNext(items, 4);
    assert items[..5] == items && items[..0] == [];
  }

  lemma {:induction false} WrappedNext(items: seq<Item>, i: nat)
    requires i < |items|
    ensures WrappedCost(items[..i + 1]) == Wrap64(WrappedCost(items[..i]) + MulDivRoundHalfEven(items[i].count, items[i].rate))
  {
    hide Wrap64, MulDivRoundHalfEven;
    assert items[..i + 1][..i] == items[..i];
  }

  /**
   The same through the unchecked settlement: a negative count from upstream, worth minus half a micro-dollar,
   costs a whole one.
   */
  lemma {:induction false} NegativeCountIsCharged(t: Table, provider: string, model: string)
    requires Lookup(t, provider, model) == Some(Rate(1, 0, 0, 0, 0))
    ensures WrappedCost(Items(Usage(-500_001, 0, 0, 0, 0), Lookup(t, provider, model).value)) == 1
  {
    var items := Items(Usage(-500_001, 0, 0, 0, 0), Rate(1, 0, 0, 0, 0));
    NegativeRoundsUp();
    WrapSmall(1);
    assert items[..0] == [] && items[..5] == items;
    hide WrappedCost, RoundHalfEven;
    WrappedNext(items, 0);
    WrappedNext(items, 1);
    WrappedNext(items, 2);
    WrappedNext(items, 3);
    WrappedNext(items, 4);
    assert WrappedCost([]) == 0 by { WrappedNothing(); }
  }

  lemma {:induction false} WrappedNothing()
    ensures WrappedCost([]) == 0
  {
  }

  // ---- how the three relate -------------------------------------------------------------------------

  /** Without negative counts or rates, narrowing loses nothing as long as the total fits. */
  lemma {:induction false} NarrowingIsExact(items: seq<Item>)
    requires NonNegative(items) && Cost(items) <= MAX_INT64
    ensures 0 <= Cost(items) && WrappedCost(items) == Cost(items)
  {
    hide Wrap64, RoundHalfEven;
    if items != [] {
      var front, last := items[..|items| - 1], items[|items| - 1];
      UpDominates(last.count * last.rate, last.count * last.rate);
      NarrowingIsExact(front);
      WrapSmall(RoundHalfEven(last.count * last.rate));
      WrapSmall(Cost(items));
      if last.count == 0 || last.rate == 0 {
        assert last.count * last.rate == 0;
      }
    }
  }

  /** Each class is off by at most half a micro-USD. */
  lemma {:induction false} CostIsNear(items: seq<Item>)
    requires NonNegative(items)
    ensures 2 * Abs(Cost(items) * MILLION - Exact(items)) <= |items| * MILLION
  {
    hide RoundHalfEven;
    if items != [] {
      var front, last := items[..|items| - 1], items[|items| - 1];
      CostIsNear(front);
      UpDominates(last.count * last.rate, last.count * last.rate);
    }
  }

  predicate CountsAndRates(u: Usage, r: Rate) {
    && 0 <= u.input && 0 <= u.output && 0 <= u.cacheRead && 0 <= u.cacheWrite5m && 0 <= u.cacheWrite1h
    && 0 <= r.input && 0 <= r.output && 0 <= r.cacheRead && 0 <= r.cacheWrite5m && 0 <= r.cacheWrite1h
  }

  /** The items of a usage add up to every count at the rate of its own class. */
  lemma {:induction false} ExactSums(u: Usage, r: Rate)
    ensures Exact(Items(u, r)) == u.input * r.input + u.output * r.output + u.cacheRead * r.cacheRead
                                  + u.cacheWrite5m * r.cacheWrite5m + u.cacheWrite1h * r.cacheWrite1h
    ensures NonNegative(Items(u, r)) <==> CountsAndRates(u, r)
  {
    var i := Items(u, r);
    FiveExact(i[0], i[1], i[2], i[3], i[4]);
    assert i == [i[0], i[1], i[2], i[3], i[4]];
  }

  lemma {:induction false} FiveExact(a: Item, b: Item, c: Item, d: Item, e: Item)
    ensures Exact([a, b, c, d, e])
            == a.count * a.rate + b.count * b.rate + c.count * c.rate + d.count * d.rate + e.count * e.rate
  {
    var all := [a, b, c, d, e];
    assert all[..4] == [a, b, c, d] && [a, b, c, d][..3] == [a, b, c] && [a, b, c][..2] == [a, b];
    assert [a, b][..1] == [a] && [a][..0] == [];
    assert Exact([a]) == Exact([a][..0]) + a.count * a.rate;
    assert Exact([a, b]) == Exact([a]) + b.count * b.rate;
    assert Exact([a, b, c, d]) == Exact([a, b, c]) + d.count * d.rate;
  }

  lemma {:induction false} CheckedCostMeans(t: Table, provider: string, model: string, u: Usage)
    requires LookupUnguarded(t, provider, model).Some?
    ensures var r, c := LookupUnguarded(t, provider, model).value, CheckedCost(t, provider, model, u);
            && (c.Ok? ==> CountsAndRates(u, r) && Abs(c.micros * MILLION - Exact(Items(u, r))) <= 2_500_000)
            && (c.Err? && CountsAndRates(u, r) ==> Exact(Items(u, r)) + 2_500_000 > MAX_INT64 * MILLION)
  {
    hide NormalizeModel, RoundHalfEven, Cost, Exact;
    var items := Items(u, LookupUnguarded(t, provider, model).value);
    ExactSums(u, LookupUnguarded(t, provider, model).value);
    if NonNegative(items) {
      CostIsNear(items);
      CostNotNegative(items);
    }
  }

  lemma {:induction false} CostNotNegative(items: seq<Item>)
    requires NonNegative(items)
    ensures 0 <= Cost(items)
  {
    hide RoundHalfEven;
    if items != [] {
      var last := items[|items| - 1];
      CostNotNegative(items[..|items| - 1]);
      UpDominates(last.count * last.rate, last.count * last.rate);
    }
  }

  lemma {:induction false} UncheckedCostMeans(u: Usage, r: Rate)
    ensures CountsAndRates(u, r) && Exact(Items(u, r)) + 2_500_000 <= MAX_INT64 * MILLION ==>
              Abs(WrappedCost(Items(u, r)) * MILLION - Exact(Items(u, r))) <= 2_500_000
    ensures Exact(Items(u, r)) == u.input * r.input + u.output * r.output + u.cacheRead * r.cacheRead
                                  + u.cacheWrite5m * r.cacheWrite5m + u.cacheWrite1h * r.cacheWrite1h
  {
    hide RoundHalfEven, Cost, Exact, WrappedCost;
    var items := Items(u, r);
    ExactSums(u, r);
    if NonNegative(items) && Exact(items) + 2_500_000 <= MAX_INT64 * MILLION {
      CostIsNear(items);
      NarrowingIsExact(items);
    }
  }

  lemma {:induction false} UpIsAbove(n: int)
    requires 0 <= n
    ensures 0 <= RoundUp(n) * MILLION - n < MILLION
  {
  }

  lemma {:induction false} BoundMeans(t: Table, provider: string, model: string, input: int, output: int)
    ensures AuthorityBound(t, provider, model, input, output).Ok? ==>
              && 0 < input && 0 < output && Lookup(t, provider, model).Some?
              && var r := Lookup(t, provider, model).value;
                 var sum := input * r.input + input * r.cacheRead + input * r.cacheWrite5m + input * r.cacheWrite1h
                            + output * r.output;
                 0 <= AuthorityBound(t, provider, model, input, output).micros * MILLION - sum < 5_000_000
  {
    hide NormalizeModel, RoundUp, CostUp;
    if AuthorityBound(t, provider, model, input, output).Ok? {
      var r := Lookup(t, provider, model).value;
      var b := BoundItems(input, output, r);
      assert b[0].rate == r.input && b[1].rate == r.cacheRead && b[2].rate == r.cacheWrite5m;
      assert b[3].rate == r.cacheWrite1h && b[4].rate == r.output;
      RatesUp(input, output, r);
    }
  }

  lemma {:induction false} RatesUp(input: int, output: int, r: Rate)
    requires 0 <= r.input && 0 <= r.output && 0 <= r.cacheRead && 0 <= r.cacheWrite5m && 0 <= r.cacheWrite1h
    requires 0 < input && 0 < output
    ensures var sum := input * r.input + input * r.cacheRead + input * r.cacheWrite5m + input * r.cacheWrite1h
                       + output * r.output;
            0 <= CostUp(BoundItems(input, output, r)) * MILLION - sum < 5_000_000
  {
    hide RoundHalfEven, RoundUp, CostUp;
    var b := BoundItems(input, output, r);
    FiveCosts(b[0], b[1], b[2], b[3], b[4]);
    assert b == [b[0], b[1], b[2], b[3], b[4]];
    ItemUp(input, r.input);
    ItemUp(input, r.cacheRead);
    ItemUp(input, r.cacheWrite5m);
    ItemUp(input, r.cacheWrite1h);
    ItemUp(output, r.output);
  }

  lemma {:induction false} ItemUp(count: int, rate: int)
    requires 0 <= count && 0 <= rate
    ensures 0 <= RoundUp(count * rate) * MILLION - count * rate < MILLION
  {
    hide RoundUp;
    UpIsAbove(count * rate);
  }

  lemma {:induction false} FiveCosts(a: Item, b: Item, c: Item, d: Item, e: Item)
    ensures var r := (x: Item) => RoundHalfEven(x.count * x.rate);
            Cost([a, b, c, d, e]) == r(a) + r(b) + r(c) + r(d) + r(e)
    ensures var up := (x: Item) => RoundUp(x.count * x.rate);
            CostUp([a, b, c, d, e]) == up(a) + up(b) + up(c) + up(d) + up(e)
  {
    hide RoundHalfEven, RoundUp;
    var all := [a, b, c, d, e];
    assert all[..4] == [a, b, c, d] && [a, b, c, d][..3] == [a, b, c] && [a, b, c][..2] == [a, b];
    assert [a, b][..1] == [a] && [a][..0] == [];
    assert Cost([a, b]) == Cost([a]) + RoundHalfEven(b.count * b.rate);
    assert CostUp([a, b]) == CostUp([a]) + RoundUp(b.count * b.rate);
    assert Cost([a, b, c, d]) == Cost([a, b, c]) + RoundHalfEven(d.count * d.rate);
    assert CostUp([a, b, c, d]) == CostUp([a, b, c]) + RoundUp(d.count * d.rate);
  }

  /** A token class within its limit settles within what was reserved for it. */
  lemma {:induction false} ClassDominates(count: int, limit: int, rate: int)
    requires 0 <= count <= limit && 0 <= rate
    ensures 0 <= RoundHalfEven(count * rate) <= RoundUp(limit * rate)
  {
    hide RoundHalfEven, RoundUp;
    UpDominates(count * rate, limit * rate);
  }

  predicate WithinLimits(u: Usage, input: int, output: int) {
    && 0 <= u.input <= input && 0 <= u.cacheRead <= input && 0 <= u.cacheWrite5m <= input && 0 <= u.cacheWrite1h <= input
    && 0 <= u.output <= output
  }

  lemma {:induction false} BoundDominatesCost(u: Usage, r: Rate, input: int, output: int)
    requires WithinLimits(u, input, output)
    requires 0 <= r.input && 0 <= r.output && 0 <= r.cacheRead && 0 <= r.cacheWrite5m && 0 <= r.cacheWrite1h
    ensures 0 <= Cost(Items(u, r)) <= CostUp(BoundItems(input, output, r))
  {
    hide RoundHalfEven, RoundUp, Cost, CostUp;
    var i, b := Items(u, r), BoundItems(input, output, r);
    FiveCosts(i[0], i[1], i[2], i[3], i[4]);
    FiveCosts(b[0], b[1], b[2], b[3], b[4]);
    ClassDominates(u.input, input, r.input);
    ClassDominates(u.output, output, r.output);
    ClassDominates(u.cacheRead, input, r.cacheRead);
    ClassDominates(u.cacheWrite5m, input, r.cacheWrite5m);
    ClassDominates(u.cacheWrite1h, input, r.cacheWrite1h);
  }

  /**
   The reservation dominates the settlement. Whenever a bound is given, every usage within the declared
   limits settles without error at no more than the bound; the checked and the unchecked cost agree; and
   both are within 2.5 micro-USD of the exact rational cost.
   */
  lemma {:induction false} ReservationDominates(t: Table, provider: string, model: string, input: int, output: int,
                                             u: Usage)
    requires AuthorityBound(t, provider, model, input, output).Ok? && WithinLimits(u, input, output)
    ensures var c := CheckedCost(t, provider, model, u);
            && c.Ok? && 0 <= c.micros <= AuthorityBound(t, provider, model, input, output).micros
            && Lookup(t, provider, model).Some?
            && c.micros == WrappedCost(Items(u, Lookup(t, provider, model).value))
            && var r := Lookup(t, provider, model).value;
               var sum := u.input * r.input + u.output * r.output + u.cacheRead * r.cacheRead
                          + u.cacheWrite5m * r.cacheWrite5m + u.cacheWrite1h * r.cacheWrite1h;
               Abs(c.micros * MILLION - sum) <= 2_500_000
  {
    hide NormalizeModel, RoundHalfEven, RoundUp, Cost, CostUp, WrappedCost, Exact;
    var r := Lookup(t, provider, model).value;
    var b, items := BoundItems(input, output, r), Items(u, r);
    assert b[0].rate == r.input && b[1].rate == r.cacheRead && b[2].rate == r.cacheWrite5m;
    assert b[3].rate == r.cacheWrite1h && b[4].rate == r.output;
    BoundDominatesCost(u, r, input, output);
    assert LookupUnguarded(t, provider, model) == Some(r);
    assert NonNegative(items);
    NarrowingIsExact(items);
    CostIsNear(items);
    ExactSums(u, r);
  }

  /** The two settlements agree on every usage the checked one accepts, unless the empty-model entry misleads it. */
  lemma {:induction false} SettlementsAgree(t: Table, provider: string, model: string, u: Usage)
    requires CheckedCost(t, provider, model, u).Ok?
    requires PriceKey(provider, model) in t || NormalizeModel(model) != "" || PriceKey(provider, "") !in t
    ensures Lookup(t, provider, model).Some?
    ensures CheckedCost(t, provider, model, u).micros == WrappedCost(Items(u, Lookup(t, provider, model).value))
  {
    hide NormalizeModel, RoundHalfEven, Cost, WrappedCost;
    LookupsAgreeExactly(t, provider, model);
    NarrowingIsExact(Items(u, Lookup(t, provider, model).value));
  }
}
