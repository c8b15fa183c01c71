/** The reservation made for a paid review, and what its requests are later estimated to cost. */
module CostCeiling {
  import opened Prelude

  const MAX_INPUT_BYTES := 100_000
  const FRAMING_TOKENS := 8_192
  const MILLION := 1_000_000.0

  /** Flat rates per million tokens; a tariff may have no cache-write rate. */
  datatype Pricing = Pricing(input: real, cached: real, write: Option<real>, output: real, search: real, maxInput: nat)

  /** Counters as the provider reports them; nothing is known about their signs or sum. */
  datatype Usage = Usage(input: int, cached: int, writes: int, output: int)

  /** A request row: its usage if any, whether it ran on the standard tier, its search calls if known. */
  datatype Measured = Measured(usage: Option<Usage>, standardTier: bool, searches: Option<nat>)

  /** What a price is charged for: an input token that is read anew, from the cache, or written to it, and so on. */
  datatype Unit = Plain | Cached | CacheWrite | Output | Search

  function WithUnit(u: Usage, unit: Unit): Usage {
    match unit
    case Plain => u.(input := u.input + 1)
    case Cached => u.(input := u.input + 1, cached := u.cached + 1)
    case CacheWrite => u.(input := u.input + 1, writes := u.writes + 1)
    case Output => u.(output := u.output + 1)
    case Search => u
  }

  datatype Refusal = NoPositiveRates | InputTooLong | OverTariff

  predicate ValidPricing(p: Pricing) {
    && p.input >= 0.0 && p.cached >= 0.0 && p.output >= 0.0 && p.search >= 0.0
    && (p.write.Some? ==> p.write.value >= 0.0)
  }

  function WriteRate(p: Pricing): real { if p.write.Some? then p.write.value else 0.0 }

  function Max(a: real, b: real): real { if a < b then b else a }

  function InputRate(p: Pricing): real { Max(Max(p.input, p.cached), WriteRate(p)) }

  /** More tokens than the text can have, counted from its bytes. */
  function TokenCeiling(bytes: nat): nat { bytes + FRAMING_TOKENS }

  /** Millionths of the price of so many tokens. */
  function Charge(tokens: int, rate: real): real { tokens as real * rate }

  function CaseCeiling(p: Pricing, bytes: nat, maxOutput: nat): real {
    (Charge(TokenCeiling(bytes), InputRate(p)) + Charge(maxOutput, p.output)) / MILLION
  }

  function ExactCeiling(p: Pricing, cases: seq<nat>, maxOutput: nat): real
    decreases |cases|
  {
    if cases == [] then 0.0
    else ExactCeiling(p, cases[..|cases| - 1], maxOutput) + CaseCeiling(p, cases[|cases| - 1], maxOutput)
  }

  function Micros(n: int): real { n as real / MILLION }

  /** Rounded up to whole millionths. */
  function RoundUp(x: real): (r: real)
    ensures x <= r < x + 1.0 / MILLION
    ensures exists n :: r == Micros(n)
  {
    Micros(-(-x * MILLION).Floor)
  }

  method ReserveCeiling(p: Pricing, cases: seq<nat>, maxOutput: nat) returns (r: Result<real, Refusal>)
    requires ValidPricing(p)
    ensures r.Ok? <==>
              && InputRate(p) > 0.0 && p.output > 0.0
              && forall c <- cases :: c <= 100_000 && c + 8_192 <= p.maxInput
    ensures r.Ok? ==> ExactCeiling(p, cases, maxOutput) <= r.value < ExactCeiling(p, cases, maxOutput) + 1.0 / MILLION
    ensures r.Ok? ==> exists n :: r.value == Micros(n)
    ensures r.Err? ==> (r.error.NoPositiveRates? <==> InputRate(p) <= 0.0 || p.output <= 0.0)
  {
    hide ValidPricing;
    if InputRate(p) <= 0.0 || p.output <= 0.0 { return Err(NoPositiveRates); }
    hide Charge, InputRate, RoundUp;
    var total := 0.0;
    for i := 0 to |cases|
      invariant total == ExactCeiling(p, cases[..i], maxOutput)
      invariant forall n :: 0 <= n < i ==> cases[n] <= MAX_INPUT_BYTES && TokenCeiling(cases[n]) <= p.maxInput
    {
      assert cases[i] in cases;
      if cases[i] > MAX_INPUT_BYTES { return Err(InputTooLong); }
      var tokens := TokenCeiling(cases[i]);
      if tokens > p.maxInput { return Err(OverTariff); }
      assert cases[..i + 1][..i] == cases[..i];
      total := total + (Charge(tokens, InputRate(p)) + Charge(maxOutput, p.output)) / MILLION;
    }
    assert cases[..|cases|] == cases;
    return Ok(RoundUp(total));
  }

  predicate Unknown(p: Pricing, m: Measured) {
    || m.usage.None? || !m.standardTier
    || m.usage.value.input < 0 || m.usage.value.cached < 0 || m.usage.value.output < 0 || m.usage.value.writes < 0
    || m.usage.value.input < m.usage.value.cached + m.usage.value.writes
    || p.maxInput < m.usage.value.input
    || m.searches.None?
    || (m.usage.value.writes > 0 && p.write.None?)
  }

  function TokenCost(p: Pricing, u: Usage): real {
    Charge(u.input - u.cached - u.writes, p.input) + Charge(u.cached, p.cached) + Charge(u.writes, WriteRate(p))
    + Charge(u.output, p.output)
  }

  function Estimate(p: Pricing, m: Measured): Option<real> {
    if Unknown(p, m) then None
    else Some(TokenCost(p, m.usage.value) / MILLION + m.searches.value as real * p.search)
  }

  /** Requests aligned with their cases; a case may have no request, or one of unknown cost. */
  function MeasuredCost(p: Pricing, requests: seq<Option<Measured>>): real
    decreases |requests|
  {
    if requests == [] then 0.0
    else
      var last := requests[|requests| - 1];
      MeasuredCost(p, requests[..|requests| - 1])
      + (if last.None? || Estimate(p, last.value).None? then 0.0 else Estimate(p, last.value).value)
  }

  /** A cost is known exactly if the request ran on the standard tier, and its counters are present, make sense
      together, stay within the tariff, and have a rate for every kind of token used. */
  lemma KnownIff(p: Pricing, m: Measured)
    ensures Estimate(p, m).Some? <==>
              && m.standardTier && m.usage.Some? && m.searches.Some?
              && var u := m.usage.value;
                 && 0 <= u.cached && 0 <= u.writes && 0 <= u.output && u.cached + u.writes <= u.input <= p.maxInput
                 && (u.writes == 0 || p.write.Some?)
  {
  }

  lemma OneMore(tokens: int, rate: real)
    ensures Charge(tokens + 1, rate) == Charge(tokens, rate) + rate && Charge(0, rate) == 0.0
  {
    assert (tokens + 1) as real * rate == tokens as real * rate + rate;
  }

  /** One unit more of any kind raises a known cost by exactly its rate. */
  lemma EachUnitAtItsRate(p: Pricing, u: Usage, searches: nat, unit: Unit)
    requires Estimate(p, Measured(Some(u), true, Some(searches))).Some?
    requires unit.Output? || unit.Search? || u.input < p.maxInput
    requires unit.CacheWrite? ==> p.write.Some?
    ensures var more := if unit.Search? then searches + 1 else searches;
            var before := Estimate(p, Measured(Some(u), true, Some(searches)));
            var after := Estimate(p, Measured(Some(WithUnit(u, unit)), true, Some(more)));
            after.Some? &&
            match unit
            case Plain => after.value == before.value + p.input / MILLION
            case Cached => after.value == before.value + p.cached / MILLION
            case CacheWrite => after.value == before.value + p.write.value / MILLION
            case Output => after.value == before.value + p.output / MILLION
            case Search => after.value == before.value + p.search
  {
    OneMore(u.input - u.cached - u.writes, p.input);
    OneMore(u.cached, p.cached);
    OneMore(u.writes, WriteRate(p));
    OneMore(u.output, p.output);
    hide Charge;
    assert (searches + 1) as real * p.search == searches as real * p.search + p.search;
  }

  /** Nothing used costs nothing. */
  lemma NothingCostsNothing(p: Pricing)
    ensures Estimate(p, Measured(Some(Usage(0, 0, 0, 0)), true, Some(0))) == Some(0.0)
  {
  }

  /** The costs of parts add up; a case without a request, or with one of unknown cost, adds nothing. */
  lemma {:induction false} CostsAdd(p: Pricing, a: seq<Option<Measured>>, b: seq<Option<Measured>>)
    ensures MeasuredCost(p, a + b) == MeasuredCost(p, a) + MeasuredCost(p, b)
    ensures forall m :: MeasuredCost(p, [Some(m)]) == if Estimate(p, m).Some? then Estimate(p, m).value else 0.0
    ensures MeasuredCost(p, [None]) == 0.0
    decreases |b|
  {
    hide Estimate;
    forall m: Option<Measured> ensures [m][..0] == [] {}
    if b == [] {
      assert a + b == a;
    } else {
      CostsAdd(p, a, b[..|b| - 1]);
      assert (a + b)[..|a + b| - 1] == a + b[..|b| - 1];
    }
  }

  lemma ChargeGrows(tokens: int, more: int, rate: real, higher: real)
    requires 0 <= tokens <= more && 0.0 <= rate <= higher
    ensures 0.0 <= Charge(tokens, rate) <= Charge(more, higher)
  {
    assert tokens as real * rate <= tokens as real * higher;
    assert tokens as real * higher <= more as real * higher;
  }

  lemma ChargeSplits(a: int, b: int, c: int, rate: real)
    ensures Charge(a, rate) + Charge(b, rate) + Charge(c, rate) == Charge(a + b + c, rate)
  {
    assert (a + b + c) as real * rate == a as real * rate + b as real * rate + c as real * rate;
  }

  /** However input splits into uncached, cached and cache-write tokens, charging all of it at the highest
      rate costs at least as much. */
  lemma HighestRateDominates(p: Pricing, plain: nat, cached: nat, writes: nat)
    requires ValidPricing(p)
    ensures 0.0 <= Charge(plain, p.input) + Charge(cached, p.cached) + Charge(writes, WriteRate(p))
                <= Charge(plain + cached + writes, InputRate(p))
  {
    var top := InputRate(p);
    hide Charge;
    ChargeGrows(plain, plain, p.input, top);
    ChargeGrows(cached, cached, p.cached, top);
    ChargeGrows(writes, writes, WriteRate(p), top);
    ChargeSplits(plain, cached, writes, top);
  }

  /** The request used no more tokens than its case allows and no search calls. */
  predicate WithinLimits(m: Measured, bytes: nat, maxOutput: nat) {
    m.usage.Some? ==> m.usage.value.input <= TokenCeiling(bytes) && m.usage.value.output <= maxOutput && m.searches == Some(0)
  }

  lemma TokenCostWithin(p: Pricing, u: Usage, most: nat, maxOutput: nat)
    requires ValidPricing(p) && 0 <= u.cached && 0 <= u.writes && u.cached + u.writes <= u.input <= most
    requires 0 <= u.output <= maxOutput
    ensures 0.0 <= TokenCost(p, u) <= Charge(most, InputRate(p)) + Charge(maxOutput, p.output)
  {
    hide Charge;
    HighestRateDominates(p, u.input - u.cached - u.writes, u.cached, u.writes);
    ChargeGrows(u.input, most, InputRate(p), InputRate(p));
    ChargeGrows(u.output, maxOutput, p.output, p.output);
  }

  lemma OneRequestWithinCeiling(p: Pricing, m: Measured, bytes: nat, maxOutput: nat)
    requires ValidPricing(p) && WithinLimits(m, bytes, maxOutput)
    ensures Estimate(p, m).Some? ==> 0.0 <= Estimate(p, m).value <= CaseCeiling(p, bytes, maxOutput)
    ensures 0.0 <= CaseCeiling(p, bytes, maxOutput)
  {
    hide TokenCost, InputRate, Charge;
    TokenCostWithin(p, Usage(0, 0, 0, 0), TokenCeiling(bytes), maxOutput);
    if Estimate(p, m).Some? { TokenCostWithin(p, m.usage.value, TokenCeiling(bytes), maxOutput); }
  }

  /** No smaller ceiling would do: some request within the limits of a case costs exactly that much. */
  lemma CeilingIsAttained(p: Pricing, bytes: nat, maxOutput: nat) returns (m: Measured)
    requires ValidPricing(p) && TokenCeiling(bytes) <= p.maxInput
    ensures WithinLimits(m, bytes, maxOutput) && Estimate(p, m) == Some(CaseCeiling(p, bytes, maxOutput))
  {
    var most, top := TokenCeiling(bytes), InputRate(p);
    var u := if top == p.input then Usage(most, 0, 0, maxOutput)
             else if top == p.cached then Usage(most, most, 0, maxOutput) else Usage(most, 0, most, maxOutput);
    m := Measured(Some(u), true, Some(0));
  }

  /** The admission ceiling dominates the measured cost of all requests. */
  lemma {:induction false} CeilingDominates(p: Pricing, cases: seq<nat>, maxOutput: nat, requests: seq<Option<Measured>>)
    requires ValidPricing(p) && |requests| == |cases|
    requires forall i :: 0 <= i < |cases| && requests[i].Some? ==> WithinLimits(requests[i].value, cases[i], maxOutput)
    ensures 0.0 <= MeasuredCost(p, requests) <= ExactCeiling(p, cases, maxOutput)
    decreases |cases|
  {
    if cases != [] {
      var n := |cases| - 1;
      CeilingDominates(p, cases[..n], maxOutput, requests[..n]);
      OneRequestWithinCeiling(p, if requests[n].Some? then requests[n].value else Measured(None, true, None), cases[n], maxOutput);
    }
  }

  /** So the stop for costs above the reservation is never needed while requests keep to their limits. */
  lemma ReservationIsNeverExceeded(p: Pricing, cases: seq<nat>, maxOutput: nat, requests: seq<Option<Measured>>, reserved: real)
    requires ValidPricing(p) && |requests| == |cases|
    requires forall i :: 0 <= i < |cases| && requests[i].Some? ==> WithinLimits(requests[i].value, cases[i], maxOutput)
    requires ExactCeiling(p, cases, maxOutput) <= reserved
    ensures !(reserved < MeasuredCost(p, requests))
  {
    CeilingDominates(p, cases, maxOutput, requests);
  }
}
