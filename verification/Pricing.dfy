/** Tiered token prices in milli-yuan per million tokens, and the bounds of each guarded model. */
module Pricing {
  import opened Options

  datatype Tier = Tier(limit: nat, inputRate: nat, outputRate: nat)

  /** A milli-yuan per million tokens is 10^9 units of 10^-18 yuan per token. */
  const UNITS_PER_RATE: nat := 1_000_000_000

  /** The first tier whose limit admits the input. */
  function TierFor(tiers: seq<Tier>, input: nat): Option<Tier> {
    if tiers == [] then None
    else if input <= tiers[0].limit then Some(tiers[0])
    else TierFor(tiers[1..], input)
  }

  function Charge(t: Tier, input: nat, output: nat): nat {
    (input * t.inputRate + output * t.outputRate) * UNITS_PER_RATE
  }

  const MAX_MODEL := "qwen3-max-2025-09-23"
  const MAX_PRICE_BASIS := "https://help.aliyun.com/zh/model-studio/model-qwen3-max"
  const MAX_INPUT_TOKENS: nat := 258_048
  const MAX_TIERS: seq<Tier> :=
      [Tier(32_000, 6_000, 24_000), Tier(128_000, 10_000, 40_000), Tier(262_144, 15_000, 60_000)]

  // -- Guarded models ---------------------------------------------------------------------

  /** The fixed bounds of one guarded model; only the output limit is chosen by the host. */
  datatype Bounds = Bounds(
    model: string, priceSource: string, purpose: string, beta: bool,
    maximumInput: nat, requestBytes: Option<nat>, tiers: seq<Tier>, maxOutput: nat)

  const MILLION_TIER: seq<Tier> := [Tier(1_000_000, 12_000, 36_000)]

  function SuiteBounds(n: nat): Bounds {
    Bounds("qwen3.8-max", "https://help.aliyun.com/zh/model-studio/qwen3-8-max", "engineering-suite-model-request",
           false, 250_000, Some(250_000), MILLION_TIER, n)
  }

  function BetaBounds(model: string, source: string, maximumInput: nat, requestBytes: Option<nat>, tiers: seq<Tier>,
                      n: nat): Bounds {
    Bounds(model, source, "beta-001-model-request", true, maximumInput, requestBytes, tiers, n)
  }

  function CoderNextBounds(n: nat): Bounds {
    BetaBounds("qwen3-coder-next", "https://help.aliyun.com/zh/model-studio/qwen3-coder-next", 204_800, None,
               [Tier(32_000, 1_000, 4_000), Tier(128_000, 1_500, 6_000), Tier(262_144, 2_500, 10_000)], n)
  }

  function InstructBounds(n: nat): Bounds {
    BetaBounds("qwen3-235b-a22b-instruct-2507", "https://help.aliyun.com/zh/model-studio/qwen3-235b-a22b-instruct-2507",
               129_024, None, [Tier(129_024, 2_000, 8_000)], n)
  }

  function CoderFlashBounds(n: nat): Bounds {
    BetaBounds("qwen3-coder-flash-2025-07-28", "https://help.aliyun.com/zh/model-studio/qwen3-coder-flash", 997_952,
               None, [Tier(32_000, 1_000, 4_000), Tier(128_000, 1_500, 6_000), Tier(256_000, 2_500, 10_000),
                      Tier(1_000_000, 5_000, 25_000)], n)
  }

  function MaxBounds(n: nat): Bounds {
    BetaBounds(MAX_MODEL, MAX_PRICE_BASIS, MAX_INPUT_TOKENS, None, MAX_TIERS, n)
  }

  function Qwen38MaxBounds(n: nat): Bounds {
    BetaBounds("qwen3.8-max", "https://help.aliyun.com/zh/model-studio/qwen3-8-max", 250_000, Some(250_000),
               MILLION_TIER, n)
  }

  predicate Declared(b: Bounds) {
    b in {SuiteBounds(b.maxOutput), CoderNextBounds(b.maxOutput), InstructBounds(b.maxOutput),
          CoderFlashBounds(b.maxOutput), MaxBounds(b.maxOutput), Qwen38MaxBounds(b.maxOutput)}
  }

  /** `checkpoint`, with the outcome of the price window given. */
  predicate CheckpointOk(b: Bounds, inWindow: bool) {
    && inWindow && 1 <= b.maxOutput <= 4096
    && (b.requestBytes.Some? ==> 1024 <= b.requestBytes.value <= 16_777_216 && b.maximumInput <= b.requestBytes.value)
  }

  datatype Completeness = UnknownUsage | Partial | Complete

  datatype Usage = Usage(
    completeness: Completeness, input: Option<nat>, output: Option<nat>, uncached: Option<nat>,
    cacheRead: Option<nat>, cacheCreation: Option<nat>, reasoning: Option<nat>)

  const NO_USAGE := Usage(UnknownUsage, None, None, None, None, None, None)

  /** Complete usage inside the bounds. */
  predicate InBounds(b: Bounds, u: Usage) {
    && u.completeness.Complete? && u.input.Some? && u.output.Some?
    && u.input.value <= b.maximumInput && u.output.value <= b.maxOutput
  }

  /** `cost_units`. */
  function CostUnits(b: Bounds, u: Usage): Option<nat> {
    if !InBounds(b, u) then None
    else match TierFor(b.tiers, u.input.value)
         case Some(t) => Some(Charge(t, u.input.value, u.output.value))
         case None => None
  }

  /** `maximum_units`: the whole input and output limit at the highest tier. */
  function MaximumUnits(b: Bounds): nat
    requires b.tiers != []
  {
    Charge(b.tiers[|b.tiers| - 1], b.maximumInput, b.maxOutput)
  }

  /** Tiers cover the input range, and neither rate falls from one tier to the next. */
  predicate WellPriced(b: Bounds) {
    && b.tiers != [] && b.maximumInput <= b.tiers[|b.tiers| - 1].limit
    && RatesAscend(b.tiers)
  }

  predicate RatesAscend(tiers: seq<Tier>) {
    forall i, j :: 0 <= i <= j < |tiers| ==>
        tiers[i].inputRate <= tiers[j].inputRate && tiers[i].outputRate <= tiers[j].outputRate
  }

  lemma DeclaredAreWellPriced(b: Bounds)
    requires Declared(b)
    ensures WellPriced(b)
  {
  }

  /** A smaller input falls in the same or an earlier tier, which is no dearer. */
  lemma {:induction false} TierEarlier(tiers: seq<Tier>, a: nat, b: nat)
    requires a <= b && RatesAscend(tiers) && tiers != [] && b <= tiers[|tiers| - 1].limit
    ensures TierFor(tiers, a).Some? && TierFor(tiers, b).Some?
    ensures TierFor(tiers, b).value in tiers
    ensures TierFor(tiers, a).value.inputRate <= TierFor(tiers, b).value.inputRate
    ensures TierFor(tiers, a).value.outputRate <= TierFor(tiers, b).value.outputRate
  {
    if b > tiers[0].limit {
      assert forall i, j :: 0 <= i <= j < |tiers[1..]| ==>
               tiers[1..][i] == tiers[i + 1] && tiers[1..][j] == tiers[j + 1];
      if a <= tiers[0].limit {
        TierEarlier(tiers[1..], b, b);
      } else {
        TierEarlier(tiers[1..], a, b);
      }
    }
  }

  lemma ProductMonotone(a: nat, b: nat, x: nat, y: nat)
    requires a <= b && x <= y
    ensures a * x <= b * y
  {
    assert a * x <= b * x <= b * y;
  }

  lemma ChargeMonotone(s: Tier, t: Tier, i: nat, j: nat, o: nat, p: nat)
    requires s.inputRate <= t.inputRate && s.outputRate <= t.outputRate && i <= j && o <= p
    ensures Charge(s, i, o) <= Charge(t, j, p)
  {
    ProductMonotone(i, j, s.inputRate, t.inputRate);
    ProductMonotone(o, p, s.outputRate, t.outputRate);
  }

  /** Every complete in-range usage has a price, within the amount reserved for the request. */
  lemma CostWithinReservation(b: Bounds, u: Usage)
    requires WellPriced(b)
    ensures CostUnits(b, u).Some? <==>
            && u.completeness == Complete && u.input.Some? && u.output.Some?
            && u.input.value <= b.maximumInput && u.output.value <= b.maxOutput
    ensures CostUnits(b, u).Some? ==> CostUnits(b, u).value <= MaximumUnits(b)
  {
    if InBounds(b, u) {
      TierEarlier(b.tiers, u.input.value, b.maximumInput);
      var t, last := TierFor(b.tiers, u.input.value).value, b.tiers[|b.tiers| - 1];
      TierEarlier(b.tiers, u.input.value, u.input.value);
      var k :| 0 <= k < |b.tiers| && b.tiers[k] == t;
      ChargeMonotone(t, last, u.input.value, b.maximumInput, u.output.value, b.maxOutput);
    }
  }

  /** More tokens never cost less. */
  lemma CostMonotone(b: Bounds, u: Usage, v: Usage)
    requires WellPriced(b) && InBounds(b, u) && InBounds(b, v)
    requires u.input.value <= v.input.value && u.output.value <= v.output.value
    ensures CostUnits(b, u).Some? && CostUnits(b, v).Some? && CostUnits(b, u).value <= CostUnits(b, v).value
  {
    TierEarlier(b.tiers, u.input.value, v.input.value);
    ChargeMonotone(TierFor(b.tiers, u.input.value).value, TierFor(b.tiers, v.input.value).value,
                   u.input.value, v.input.value, u.output.value, v.output.value);
  }

  // -- What a price is --------------------------------------------------------------------

  /** The tier of an input is the one of least index whose limit admits it. */
  ghost predicate LeastTier(tiers: seq<Tier>, input: nat, k: nat) {
    k < |tiers| && input <= tiers[k].limit && forall j :: 0 <= j < k ==> tiers[j].limit < input
  }

  lemma {:induction false} TierIsLeast(tiers: seq<Tier>, input: nat)
    ensures TierFor(tiers, input).None? <==> forall j :: 0 <= j < |tiers| ==> tiers[j].limit < input
    ensures TierFor(tiers, input).Some? ==>
              exists k :: 0 <= k && LeastTier(tiers, input, k) && TierFor(tiers, input).value == tiers[k]
  {
    if tiers != [] && input > tiers[0].limit {
      var rest := tiers[1..];
      TierIsLeast(rest, input);
      assert forall j :: 0 < j < |tiers| ==> tiers[j] == rest[j - 1];
      if TierFor(rest, input).Some? {
        var k :| 0 <= k && LeastTier(rest, input, k) && TierFor(rest, input).value == rest[k];
        assert LeastTier(tiers, input, k + 1);
      }
    } else if tiers != [] {
      assert LeastTier(tiers, input, 0);
    }
  }

  lemma LeastIsTier(tiers: seq<Tier>, input: nat, k: nat)
    requires LeastTier(tiers, input, k)
    ensures TierFor(tiers, input) == Some(tiers[k])
  {
    TierIsLeast(tiers, input);
    var j :| 0 <= j && LeastTier(tiers, input, j) && TierFor(tiers, input).value == tiers[j];
    assert j == k;
  }

  function Tokens(input: nat, output: nat): Usage { Usage(Complete, Some(input), Some(output), None, None, None, None) }

  /** Inside tier `k` no tokens cost nothing, one more input token costs exactly the tier's input rate and one more
      output token exactly its output rate, in units of 10^9 per token. */
  lemma MarginalPrice(b: Bounds, input: nat, output: nat, k: nat)
    requires LeastTier(b.tiers, input, k) && InBounds(b, Tokens(input, output))
    ensures CostUnits(b, Tokens(input, output)).Some?
    ensures input == 0 && output == 0 ==> CostUnits(b, Tokens(input, output)).value == 0
    ensures InBounds(b, Tokens(input, output + 1)) ==>
              && CostUnits(b, Tokens(input, output + 1)).Some?
              && CostUnits(b, Tokens(input, output + 1)).value
                 == CostUnits(b, Tokens(input, output)).value + b.tiers[k].outputRate * 1_000_000_000
    ensures InBounds(b, Tokens(input + 1, output)) && LeastTier(b.tiers, input + 1, k) ==>
              && CostUnits(b, Tokens(input + 1, output)).Some?
              && CostUnits(b, Tokens(input + 1, output)).value
                 == CostUnits(b, Tokens(input, output)).value + b.tiers[k].inputRate * 1_000_000_000
  {
    LeastIsTier(b.tiers, input, k);
    if LeastTier(b.tiers, input + 1, k) { LeastIsTier(b.tiers, input + 1, k); }
    var t := b.tiers[k];
    assert (input + 1) * t.inputRate == input * t.inputRate + t.inputRate;
    assert (output + 1) * t.outputRate == output * t.outputRate + t.outputRate;
  }

  /** The price of a usage does not depend on anything but its two token counts. */
  lemma OnlyTokensCount(b: Bounds, u: Usage)
    requires InBounds(b, u)
    ensures CostUnits(b, u) == CostUnits(b, Tokens(u.input.value, u.output.value))
  {
  }

  /** The reservation of a declared model is the price of its full input and output at its last tier's rates. */
  lemma ReservationIsTight(b: Bounds)
    requires Declared(b)
    ensures b.tiers != [] && CostUnits(b, Tokens(b.maximumInput, b.maxOutput)) == Some(MaximumUnits(b))
  {
    LeastIsTier(b.tiers, b.maximumInput, |b.tiers| - 1);
  }
}
