/** Exact CNY arithmetic: amounts are whole numbers of 10^-8 CNY, prices are 10^-8 CNY per million tokens. */
module Money {

  type Cny = nat

  const PER_MILLION: nat := 1_000_000
  /** One micro-CNY, the unit of the quota mirror, is a hundred ledger units. */
  const UNITS_PER_MICRO: nat := 100
  /** Twelve integer and eight fractional digits. */
  const CNY_LIMIT: nat := 100_000_000_000_000_000_000

  predicate IsCny(amount: int) {
    0 <= amount < CNY_LIMIT
  }

  /** An amount has at most twelve digits before the point and eight behind it. */
  lemma AmountsAre(amount: int)
    ensures IsCny(amount) <==> 0 <= amount < 100_000_000_000_000_000_000
  {
  }

  datatype Option<+T> = None | Some(value: T)

  datatype Price = Price(input: nat, output: nat, cached: nat, reasoning: nat)

  datatype Usage = Usage(inputTokens: nat, outputTokens: nat, cachedTokens: nat, reasoningTokens: nat,
                         upstream: bool, unpricedTokens: nat)

  /** What a body says about usage: nothing, nothing usable, or counts; the last number counts tokens without a price. */
  datatype Report =
    | Missing
    | Unusable
    | Reported(inputTokens: nat, outputTokens: nat, cachedTokens: nat, reasoningTokens: nat, unpricedTokens: nat)

  const NO_USAGE := Usage(0, 0, 0, 0, false, 0)

  /** Only counts given by the upstream are an upstream's; anything else is no usage at all. */
  function Normalised(report: Report): Usage {
    match report
    case Reported(input, output, cached, reasoning, unpriced) => Usage(input, output, cached, reasoning, true, unpriced)
    case _ => NO_USAGE
  }

  function Max(a: int, b: int): int {
    if a >= b then a else b
  }

  function CeilDiv(n: nat, d: nat): (q: nat)
    requires d > 0
    ensures q * d >= n && n > (q - 1) * d
  {
    (n + d - 1) / d
  }

  /** Division rounding halves up, the rounding of an unqualified fixed-point rendering. */
  function HalfUpDiv(n: nat, d: nat): (q: nat)
    requires d > 0
    ensures 2 * q * d <= 2 * n + d < 2 * (q + 1) * d
  {
    var q := (2 * n + d) / (2 * d);
    assert q * (2 * d) <= 2 * n + d < (q + 1) * (2 * d);
    q
  }

  /** What the reported usage costs before the final rounding, in millionths of a ledger unit. */
  function RawCost(usage: Usage, price: Price): nat {
    Max(0, usage.inputTokens - usage.cachedTokens) * price.input
    + Max(0, usage.outputTokens - usage.reasoningTokens) * price.output
    + usage.cachedTokens * price.cached
    + usage.reasoningTokens * price.reasoning
  }

  function CalculateCost(usage: Usage, price: Price): Cny {
    HalfUpDiv(RawCost(usage, price), PER_MILLION)
  }

  function WorstCase(inputTokens: nat, outputTokens: nat, price: Price): nat {
    inputTokens * Max(price.input, price.cached) + outputTokens * Max(price.output, price.reasoning)
  }

  function HighestWorstCase(inputTokens: nat, outputTokens: nat, prices: seq<Price>): nat
    requires |prices| > 0
  {
    var first := WorstCase(inputTokens, outputTokens, prices[0]);
    if |prices| == 1 then first else Max(first, HighestWorstCase(inputTokens, outputTokens, prices[1..]))
  }

  /** It is the worst case of one of the prices, and no price exceeds it. */
  lemma {:induction false} HighestIsAMaximum(inputTokens: nat, outputTokens: nat, prices: seq<Price>)
    requires |prices| > 0
    ensures forall p :: p in prices ==> WorstCase(inputTokens, outputTokens, p) <= HighestWorstCase(inputTokens, outputTokens, prices)
    ensures exists p :: p in prices
                        && WorstCase(inputTokens, outputTokens, p) == HighestWorstCase(inputTokens, outputTokens, prices)
    decreases prices
  {
    hide WorstCase;
    assert prices[0] in prices;
    if |prices| > 1 {
      HighestIsAMaximum(inputTokens, outputTokens, prices[1..]);
      assert prices == [prices[0]] + prices[1..];
    }
  }

  /** The amount put on hold for one attempt; None when no price is known or the amount cannot be recorded. */
  function EstimateBudgetCost(inputTokens: nat, outputTokens: nat, prices: seq<Price>): Option<Cny> {
    if |prices| == 0 then None
    else
      var amount := CeilDiv(HighestWorstCase(inputTokens, outputTokens, prices), PER_MILLION);
      if IsCny(amount) then Some(amount) else None
  }

  /** The estimate is the least whole amount that covers the worst case at every price; without a price there is none. */
  lemma EstimateExactly(inputTokens: nat, outputTokens: nat, prices: seq<Price>, amount: nat)
    requires IsCny(amount)
    ensures EstimateBudgetCost(inputTokens, outputTokens, prices) == Some(amount)
            <==> && prices != []
                 && (forall p :: p in prices ==> WorstCase(inputTokens, outputTokens, p) <= amount * 1_000_000)
                 && (exists p :: p in prices && WorstCase(inputTokens, outputTokens, p) > (amount - 1) * 1_000_000)
  {
    hide WorstCase;
    if prices != [] {
      HighestIsAMaximum(inputTokens, outputTokens, prices);
      hide HighestWorstCase;
      CeilIsLeast(HighestWorstCase(inputTokens, outputTokens, prices), amount);
    }
  }

  lemma CeilIsLeast(n: nat, q: nat)
    ensures CeilDiv(n, PER_MILLION) == q <==> q * PER_MILLION >= n && n > (q - 1) * PER_MILLION
  {
  }

  /** The usage stays inside the token bounds the request was prepared with. */
  predicate Within(usage: Usage, inputTokens: nat, outputTokens: nat) {
    Max(usage.inputTokens, usage.cachedTokens) <= inputTokens
    && Max(usage.outputTokens, usage.reasoningTokens) <= outputTokens
  }

  // Splitting a bounded token count between two prices never costs more than all of it at the dearer one.
  lemma SplitCost(total: nat, part: nat, bound: nat, plain: nat, special: nat)
    requires Max(total, part) <= bound
    ensures Max(0, total - part) * plain + part * special <= bound * Max(plain, special)
  {
    var top := Max(plain, special);
    var rest := Max(0, total - part);
    assert rest * plain <= rest * top by { MulMonotone(rest, plain, top); }
    assert part * special <= part * top by { MulMonotone(part, special, top); }
    assert rest * top + part * top == (rest + part) * top;
    assert (rest + part) * top <= bound * top by { MulMonotone(top, rest + part, bound); }
  }

  lemma MulMonotone(k: nat, a: nat, b: nat)
    requires a <= b
    ensures k * a <= k * b
  {
  }

  lemma RawWithinWorstCase(usage: Usage, price: Price, inputTokens: nat, outputTokens: nat)
    requires Within(usage, inputTokens, outputTokens)
    ensures RawCost(usage, price) <= WorstCase(inputTokens, outputTokens, price)
  {
    SplitCost(usage.inputTokens, usage.cachedTokens, inputTokens, price.input, price.cached);
    SplitCost(usage.outputTokens, usage.reasoningTokens, outputTokens, price.output, price.reasoning);
  }

  lemma HalfUpBelowCeil(low: nat, high: nat)
    requires low <= high
    ensures HalfUpDiv(low, PER_MILLION) <= CeilDiv(high, PER_MILLION)
  {
  }

  /** Rounded up against rounded half up: the hold for one attempt covers any bounded usage of any listed price. */
  lemma ActualWithinEstimate(usage: Usage, price: Price, inputTokens: nat, outputTokens: nat, prices: seq<Price>)
    requires price in prices
    requires Within(usage, inputTokens, outputTokens)
    requires EstimateBudgetCost(inputTokens, outputTokens, prices).Some?
    ensures CalculateCost(usage, price) <= EstimateBudgetCost(inputTokens, outputTokens, prices).value
  {
    hide WorstCase, RawCost;
    RawWithinWorstCase(usage, price, inputTokens, outputTokens);
    HighestIsAMaximum(inputTokens, outputTokens, prices);
    HalfUpBelowCeil(RawCost(usage, price), HighestWorstCase(inputTokens, outputTokens, prices));
  }

  lemma CeilMonotone(low: nat, high: nat, d: nat)
    requires d > 0 && low <= high
    ensures CeilDiv(low, d) <= CeilDiv(high, d)
  {
    var a, b := CeilDiv(low, d), CeilDiv(high, d);
    if a > b {
      MulMonotone(d, b, a - 1);
    }
  }

  /** Dropping prices never raises the estimate, so an attempt's own estimate is within the request's. */
  lemma EstimateMonotone(inputTokens: nat, outputTokens: nat, some: seq<Price>, all: seq<Price>)
    requires |some| > 0 && forall p :: p in some ==> p in all
    requires EstimateBudgetCost(inputTokens, outputTokens, all).Some?
    ensures EstimateBudgetCost(inputTokens, outputTokens, some).Some?
    ensures EstimateBudgetCost(inputTokens, outputTokens, some).value <= EstimateBudgetCost(inputTokens, outputTokens, all).value
  {
    hide WorstCase;
    assert some[0] in some;
    HighestIsAMaximum(inputTokens, outputTokens, some);
    HighestIsAMaximum(inputTokens, outputTokens, all);
    CeilMonotone(HighestWorstCase(inputTokens, outputTokens, some), HighestWorstCase(inputTokens, outputTokens, all), PER_MILLION);
  }

  /** The estimate is no looser than rounding forces it to be: some bounded usage costs all of it but one unit. */
  lemma EstimateIsTight(inputTokens: nat, outputTokens: nat, prices: seq<Price>)
    requires EstimateBudgetCost(inputTokens, outputTokens, prices).Some?
    ensures exists usage, price :: price in prices && Within(usage, inputTokens, outputTokens)
              && CalculateCost(usage, price) + 1 >= EstimateBudgetCost(inputTokens, outputTokens, prices).value
  {
    var worst := HighestWorstCase(inputTokens, outputTokens, prices);
    HighestIsAMaximum(inputTokens, outputTokens, prices);
    var price :| price in prices && WorstCase(inputTokens, outputTokens, price) == worst;
    var usage := DearestUsage(inputTokens, outputTokens, price);
    DearestIsTheWorstCase(inputTokens, outputTokens, price);
    assert CalculateCost(usage, price) + 1 >= CeilDiv(worst, PER_MILLION);
    assert Within(usage, inputTokens, outputTokens);
  }

  /** The dearest way to spend so many tokens at a price. */
  function DearestUsage(inputTokens: nat, outputTokens: nat, price: Price): Usage {
    Usage(inputTokens, outputTokens, if price.cached >= price.input then inputTokens else 0,
          if price.reasoning >= price.output then outputTokens else 0, true, 0)
  }

  lemma DearestIsTheWorstCase(inputTokens: nat, outputTokens: nat, price: Price)
    ensures var usage := DearestUsage(inputTokens, outputTokens, price);
            Within(usage, inputTokens, outputTokens) && RawCost(usage, price) == WorstCase(inputTokens, outputTokens, price)
  {
  }

  lemma HalfUpMonotone(low: nat, high: nat)
    requires low <= high
    ensures HalfUpDiv(low, PER_MILLION) <= HalfUpDiv(high, PER_MILLION)
  {
  }

  /** An amount covers every usage within some token counts at a price exactly if it covers their worst case, rounded half up. */
  lemma CoversExactly(inputTokens: nat, outputTokens: nat, price: Price, amount: Cny)
    ensures (forall usage :: Within(usage, inputTokens, outputTokens) ==> CalculateCost(usage, price) <= amount)
            <==> HalfUpDiv(WorstCase(inputTokens, outputTokens, price), PER_MILLION) <= amount
  {
    hide WorstCase, RawCost, Within, DearestUsage, HalfUpDiv;
    DearestIsTheWorstCase(inputTokens, outputTokens, price);
    var dearest := DearestUsage(inputTokens, outputTokens, price);
    assert CalculateCost(dearest, price) == HalfUpDiv(WorstCase(inputTokens, outputTokens, price), PER_MILLION);
    forall usage | Within(usage, inputTokens, outputTokens)
      ensures CalculateCost(usage, price) <= HalfUpDiv(WorstCase(inputTokens, outputTokens, price), PER_MILLION)
    {
      RawWithinWorstCase(usage, price, inputTokens, outputTokens);
      HalfUpMonotone(RawCost(usage, price), WorstCase(inputTokens, outputTokens, price));
    }
  }

  /** Outside the bounds the estimate promises nothing: two output tokens where one was prepared cost twice the hold. */
  lemma UnboundedUsageOverruns()
    ensures var price := Price(0, 1_000_000, 0, 0);
            var usage := Usage(0, 2, 0, 0, true, 0);
            !Within(usage, 0, 1) && EstimateBudgetCost(0, 1, [price]) == Some(1) && CalculateCost(usage, price) == 2
  {
    var price := Price(0, 1_000_000, 0, 0);
    assert HighestWorstCase(0, 1, [price]) == 1_000_000;
  }

  /** Whatever prices a request is estimated at, the estimate covers this usage at any of them. */
  ghost predicate CoveredAtEveryPrice(usage: Usage, inputTokens: nat, outputTokens: nat) {
    forall prices: seq<Price>, price |
      price in prices && EstimateBudgetCost(inputTokens, outputTokens, prices).Some? ::
      CalculateCost(usage, price) <= EstimateBudgetCost(inputTokens, outputTokens, prices).value
  }

  const PER_INPUT := Price(PER_MILLION, 0, PER_MILLION, 0)
  const PER_OUTPUT := Price(0, PER_MILLION, 0, PER_MILLION)

  /** One unit for every token of one kind: the estimate is the prepared count, the charge the reported one. */
  lemma UnitPrices(usage: Usage, inputTokens: nat, outputTokens: nat)
    requires IsCny(inputTokens) && IsCny(outputTokens)
    ensures EstimateBudgetCost(inputTokens, outputTokens, [PER_INPUT]) == Some(inputTokens)
    ensures EstimateBudgetCost(inputTokens, outputTokens, [PER_OUTPUT]) == Some(outputTokens)
    ensures CalculateCost(usage, PER_INPUT) == Max(usage.inputTokens, usage.cachedTokens)
    ensures CalculateCost(usage, PER_OUTPUT) == Max(usage.outputTokens, usage.reasoningTokens)
  {
    assert HighestWorstCase(inputTokens, outputTokens, [PER_INPUT]) == inputTokens * PER_MILLION;
    assert HighestWorstCase(inputTokens, outputTokens, [PER_OUTPUT]) == outputTokens * PER_MILLION;
    assert RawCost(usage, PER_INPUT) == Max(usage.inputTokens, usage.cachedTokens) * PER_MILLION;
    assert RawCost(usage, PER_OUTPUT) == Max(usage.outputTokens, usage.reasoningTokens) * PER_MILLION;
  }

  /** The token bounds are exactly what the estimate needs: a usage is covered at every price list if and only if it is within them. */
  lemma CoveredExactlyWithin(usage: Usage, inputTokens: nat, outputTokens: nat)
    requires IsCny(inputTokens) && IsCny(outputTokens)
    ensures CoveredAtEveryPrice(usage, inputTokens, outputTokens) <==> Within(usage, inputTokens, outputTokens)
  {
    hide EstimateBudgetCost, CalculateCost;
    UnitPrices(usage, inputTokens, outputTokens);
    if CoveredAtEveryPrice(usage, inputTokens, outputTokens) {
      assert PER_INPUT in [PER_INPUT] && PER_OUTPUT in [PER_OUTPUT];
    }
    if Within(usage, inputTokens, outputTokens) {
      forall prices: seq<Price>, price | price in prices && EstimateBudgetCost(inputTokens, outputTokens, prices).Some?
        ensures CalculateCost(usage, price) <= EstimateBudgetCost(inputTokens, outputTokens, prices).value
      {
        ActualWithinEstimate(usage, price, inputTokens, outputTokens, prices);
      }
    }
  }

  // ----- answers that report nothing

  /** A quarter of a byte count, rounded up and at least one. */
  function Quarter(bytes: nat): nat {
    Max(1, CeilDiv(bytes, 4))
  }

  /** What a good answer is charged for when it reports no usage: tokens guessed from bytes. */
  function GuessedUsage(inputTokens: int, outputBytes: nat): Usage {
    Usage(Max(1, inputTokens), Quarter(outputBytes), 0, 0, false, 0)
  }

  /** The guess is covered at every price list exactly while the answer has at most four bytes for each prepared output token. */
  lemma GuessCoveredExactly(guessedInput: int, outputBytes: nat, inputTokens: nat, outputTokens: nat)
    requires IsCny(inputTokens) && IsCny(outputTokens) && Max(1, guessedInput) <= inputTokens && outputTokens >= 1
    ensures CoveredAtEveryPrice(GuessedUsage(guessedInput, outputBytes), inputTokens, outputTokens)
            <==> Quarter(outputBytes) <= outputTokens
    ensures Quarter(outputBytes) <= outputTokens <==> outputBytes <= 4 * outputTokens
  {
    hide CoveredAtEveryPrice;
    CoveredExactlyWithin(GuessedUsage(guessedInput, outputBytes), inputTokens, outputTokens);
  }

  /**
   * Every token is charged at the price of its kind: input that was cached at one price and the rest at another, output
   * that was reasoning at one price and the rest at another; the sum is rounded once.
   */
  lemma ChargeByKind(plainInput: nat, cachedInput: nat, plainOutput: nat, reasoning: nat, upstream: bool, unpriced: nat, price: Price)
    ensures CalculateCost(Usage(plainInput + cachedInput, plainOutput + reasoning, cachedInput, reasoning, upstream, unpriced), price)
            == HalfUpDiv(plainInput * price.input + cachedInput * price.cached + plainOutput * price.output + reasoning * price.reasoning,
                         1_000_000)
  {
    assert plainInput + cachedInput - cachedInput == plainInput && plainOutput + reasoning - reasoning == plainOutput;
    hide HalfUpDiv;
  }

  datatype CostParts = CostParts(input: Cny, output: Cny, cached: Cny, reasoning: Cny, total: Cny)

  /** The four audited parts are rounded one by one, the total once. */
  function EstimateProcurementCost(price: Price, usage: Usage): CostParts {
    var input := Max(0, usage.inputTokens - usage.cachedTokens) * price.input;
    var output := Max(0, usage.outputTokens - usage.reasoningTokens) * price.output;
    var cached := usage.cachedTokens * price.cached;
    var reasoning := usage.reasoningTokens * price.reasoning;
    CostParts(HalfUpDiv(input, PER_MILLION), HalfUpDiv(output, PER_MILLION), HalfUpDiv(cached, PER_MILLION),
              HalfUpDiv(reasoning, PER_MILLION), HalfUpDiv(input + output + cached + reasoning, PER_MILLION))
  }

  /** Each audited part is the charge for the tokens of its kind alone. */
  lemma PartsAreCharges(plainInput: nat, cachedInput: nat, plainOutput: nat, reasoning: nat, upstream: bool, unpriced: nat, price: Price)
    ensures var parts := EstimateProcurementCost(price, Usage(plainInput + cachedInput, plainOutput + reasoning, cachedInput, reasoning,
                                                              upstream, unpriced));
            && parts.input == CalculateCost(Usage(plainInput, 0, 0, 0, upstream, unpriced), price)
            && parts.output == CalculateCost(Usage(0, plainOutput, 0, 0, upstream, unpriced), price)
            && parts.cached == CalculateCost(Usage(cachedInput, 0, cachedInput, 0, upstream, unpriced), price)
            && parts.reasoning == CalculateCost(Usage(0, reasoning, 0, reasoning, upstream, unpriced), price)
  {
    ChargeByKind(plainInput, 0, 0, 0, upstream, unpriced, price);
    ChargeByKind(0, 0, plainOutput, 0, upstream, unpriced, price);
    ChargeByKind(0, cachedInput, 0, 0, upstream, unpriced, price);
    ChargeByKind(0, 0, 0, reasoning, upstream, unpriced, price);
    hide HalfUpDiv, CalculateCost;
  }

  /** Four amounts rounded one by one miss their rounded sum by at most two. */
  lemma RoundedPartsAreClose(a: nat, b: nat, c: nat, d: nat)
    ensures -2 <= HalfUpDiv(a, PER_MILLION) + HalfUpDiv(b, PER_MILLION) + HalfUpDiv(c, PER_MILLION) + HalfUpDiv(d, PER_MILLION)
                  - HalfUpDiv(a + b + c + d, PER_MILLION) <= 2
  {
    hide HalfUpDiv;
  }

  /** The audited total is what a request is charged, and the rounded parts miss it by at most two units. */
  lemma ProcurementTotalIsTheCharge(price: Price, usage: Usage)
    ensures var parts := EstimateProcurementCost(price, usage);
            parts.total == CalculateCost(usage, price)
            && -2 <= parts.input + parts.output + parts.cached + parts.reasoning - parts.total <= 2
  {
    var input := Max(0, usage.inputTokens - usage.cachedTokens) * price.input;
    var output := Max(0, usage.outputTokens - usage.reasoningTokens) * price.output;
    var cached := usage.cachedTokens * price.cached;
    var reasoning := usage.reasoningTokens * price.reasoning;
    hide HalfUpDiv;
    RoundedPartsAreClose(input, output, cached, reasoning);
    assert RawCost(usage, price) == input + output + cached + reasoning;
  }

  /** Ledger units to whole micro-CNY, rounded up. */
  function Micro(amount: Cny): (micro: nat)
    ensures micro * 100 >= amount
    ensures amount > 0 ==> amount > (micro - 1) * 100
  {
    CeilDiv(amount, UNITS_PER_MICRO)
  }
}
