/**
 * Profitability of a relay. Gas amounts, prices and costs are integers; fiat values are reals with a
 * linear price per chain; the profitability factor is the integer the code scales it to (x 10000).
 */
module Evaluator {
  import opened Common
  import opened Store

  const DECIMAL_BASE: nat := 10000

  const MAX_UINT256: nat := 0x1_0000000000000000_0000000000000000_0000000000000000_0000000000000000 - 1

  datatype EvaluationConfig = EvaluationConfig(
    unrewardedDeliveryGas: nat,
    minDeliveryReward: real,
    relativeMinDeliveryReward: real,
    unrewardedAckGas: nat,
    verificationAckGas: nat,
    minAckReward: real,
    relativeMinAckReward: real,
    profitabilityFactor: nat)

  /** Thresholds are non-negative in every configuration the schema accepts. */
  predicate ValidConfig(c: EvaluationConfig) {
    && c.minDeliveryReward >= 0.0 && c.relativeMinDeliveryReward >= 0.0
    && c.minAckReward >= 0.0 && c.relativeMinAckReward >= 0.0
  }

  datatype GasEstimate = GasEstimate(gasEstimate: nat, observedGasEstimate: nat, additionalFeeEstimate: nat)

  function Min(a: nat, b: nat): nat {
    if a > b then b else a
  }

  function CalcGasCost(gas: nat, gasPrice: nat, additionalFee: nat): nat {
    gas * gasPrice + additionalFee
  }

  function CalcGasReward(gas: nat, unrewardedGas: nat, bountyMaxGas: nat, bountyPriceOfGas: nat): nat {
    var rewardableGas := if gas > unrewardedGas then gas - unrewardedGas else 0;
    bountyPriceOfGas * Min(rewardableGas, bountyMaxGas)
  }

  function CalcMaxGasLoss(
    gasPrice: nat, unrewardedGas: nat, verificationGas: nat, bountyMaxGas: nat, bountyPriceOfGas: nat): int
  {
    var minimumGasUsageReward := verificationGas * bountyPriceOfGas;
    var minimumGasUsageCost := (unrewardedGas + verificationGas) * gasPrice;
    var minimumGasUsageProfit := minimumGasUsageReward - minimumGasUsageCost;
    var maximumGasUsageReward := bountyMaxGas * bountyPriceOfGas;
    var maximumGasUsageCost := (unrewardedGas + verificationGas + bountyMaxGas) * gasPrice;
    var maximumGasUsageProfit := maximumGasUsageReward - maximumGasUsageCost;
    var worstCaseProfit :=
      if minimumGasUsageProfit < maximumGasUsageProfit then minimumGasUsageProfit else maximumGasUsageProfit;
    if worstCaseProfit < 0 then worstCaseProfit else 0
  }

  // ---------------------------------------------------------------------------------------------
  // Two scenarios cover every ack
  // ---------------------------------------------------------------------------------------------

  /** What an ack earns when the application's handler uses x gas: handler and verification gas are
      rewarded up to the bounty's maximum, all gas used is paid. */
  function AckProfit(
    gasPrice: nat, unrewardedGas: nat, verificationGas: nat, bountyMaxGas: nat, bountyPriceOfGas: nat, x: nat): int
  {
    bountyPriceOfGas * Min(verificationGas + x, bountyMaxGas) - (unrewardedGas + verificationGas + x) * gasPrice
  }

  lemma MulMonotone(a: nat, b: nat, c: nat)
    requires a <= b
    ensures a * c <= b * c
  {
  }

  /** No gas usage the handler is allowed loses more than `CalcMaxGasLoss` says. */
  lemma MaxGasLossCoversAllUsages(g: nat, u: nat, v: nat, m: nat, p: nat, x: nat)
    requires x <= m
    ensures CalcMaxGasLoss(g, u, v, m, p) <= AckProfit(g, u, v, m, p, x)
  {
    var profit := AckProfit(g, u, v, m, p, x);
    assert (u + v + x) * g == (u + v) * g + x * g;
    assert (u + v + m) * g == (u + v) * g + m * g;
    if v + x > m {
      MulMonotone(x, m, g);
      assert profit == m * p - (u + v) * g - x * g;
    } else {
      assert profit == (v + x) * p - (u + v) * g - x * g;
      assert (v + x) * p == v * p + x * p;
      if p >= g {
        MulMonotone(g, p, x);
        assert profit >= v * p - (u + v) * g;
      } else {
        // the last gas units only lose: compare with x == m - v, where the cap is reached
        MulMonotone(p, g, m - v - x);
        assert (m - v - x) * p == m * p - v * p - x * p;
        assert (m - v - x) * g == m * g - v * g - x * g;
        assert profit >= m * p - (u + v) * g - (m - v) * g;
        assert (m - v) * g == m * g - v * g;
      }
    }
  }

  /** And the figure is exact: it is zero, or some allowed usage loses precisely that much. */
  lemma MaxGasLossIsAttained(g: nat, u: nat, v: nat, m: nat, p: nat)
    ensures var loss := CalcMaxGasLoss(g, u, v, m, p);
            || loss == AckProfit(g, u, v, m, p, 0)
            || loss == AckProfit(g, u, v, m, p, m)
            || (loss == 0 && forall x: nat :: x <= m ==> AckProfit(g, u, v, m, p, x) >= 0)
  {
    var loss := CalcMaxGasLoss(g, u, v, m, p);
    assert (u + v + m) * g == (u + v) * g + m * g;
    if v > m {
      MulMonotone(m, v, p);
    }
    forall x: nat | x <= m ensures loss <= AckProfit(g, u, v, m, p, x) {
      MaxGasLossCoversAllUsages(g, u, v, m, p, x);
    }
  }

  /** The same computation with the verification gas of the reward capped at the bounty's maximum. */
  function CalcMaxGasLossCapped(
    gasPrice: nat, unrewardedGas: nat, verificationGas: nat, bountyMaxGas: nat, bountyPriceOfGas: nat): int
  {
    var minimumGasUsageProfit :=
      Min(verificationGas, bountyMaxGas) * bountyPriceOfGas - (unrewardedGas + verificationGas) * gasPrice;
    var maximumGasUsageProfit :=
      bountyMaxGas * bountyPriceOfGas - (unrewardedGas + verificationGas + bountyMaxGas) * gasPrice;
    var worst := if minimumGasUsageProfit < maximumGasUsageProfit then minimumGasUsageProfit else maximumGasUsageProfit;
    if worst < 0 then worst else 0
  }

  /** The cap the code leaves out would never change the result. */
  lemma CapIsUnnecessary(g: nat, u: nat, v: nat, m: nat, p: nat)
    ensures CalcMaxGasLossCapped(g, u, v, m, p) == CalcMaxGasLoss(g, u, v, m, p)
  {
  }

  // ---------------------------------------------------------------------------------------------
  // JavaScript numbers, as far as the comparisons need them
  // ---------------------------------------------------------------------------------------------

  datatype Number = Finite(value: real) | PositiveInfinity | NegativeInfinity | NaN

  /** `a / b`, b not a negative zero */
  function Divide(a: real, b: real): Number {
    if b != 0.0 then Finite(a / b)
    else if a > 0.0 then PositiveInfinity
    else if a < 0.0 then NegativeInfinity
    else NaN
  }

  /** `n > r` */
  predicate Exceeds(n: Number, r: real) {
    n.PositiveInfinity? || (n.Finite? && n.value > r)
  }

  function Fiat(amount: int, price: real): real {
    amount as real * price
  }

  // ---------------------------------------------------------------------------------------------
  // The two evaluations
  // ---------------------------------------------------------------------------------------------

  function DeliveryGasPrice(state: RelayState): int
    requires state.bountyPlacedEvent.Some?
  {
    if state.bountyIncreasedEvent.Some? then state.bountyIncreasedEvent.value.newDeliveryGasPrice
    else state.bountyPlacedEvent.value.priceOfDeliveryGas
  }

  function AckGasPrice(state: RelayState): int
    requires state.bountyPlacedEvent.Some?
  {
    if state.bountyIncreasedEvent.Some? then state.bountyIncreasedEvent.value.newAckGasPrice
    else state.bountyPlacedEvent.value.priceOfAckGas
  }

  /** Event amounts are unsigned on chain. */
  predicate UnsignedBounty(state: RelayState) {
    state.bountyPlacedEvent.Some? ==>
      && state.bountyPlacedEvent.value.maxGasDelivery >= 0
      && state.bountyPlacedEvent.value.maxGasAck >= 0
      && (state.bountyIncreasedEvent.None? ==>
            state.bountyPlacedEvent.value.priceOfDeliveryGas >= 0 && state.bountyPlacedEvent.value.priceOfAckGas >= 0)
      && (state.bountyIncreasedEvent.Some? ==>
            && state.bountyIncreasedEvent.value.newDeliveryGasPrice >= 0
            && state.bountyIncreasedEvent.value.newAckGasPrice >= 0)
  }

  /** A factor of zero stands for "always profitable". */
  function Adjusted(reward: nat, profitabilityFactor: nat): nat {
    if profitabilityFactor == 0 then MAX_UINT256 else reward * DECIMAL_BASE / profitabilityFactor
  }

  datatype DeliveryEvaluation = DeliveryEvaluation(
    deliveryCost: nat, deliveryReward: nat, maxAckLoss: int, securedDeliveryReward: int, relayDelivery: bool)

  predicate RelayDelivery(c: EvaluationConfig, securedFiatReward: real, fiatCost: real) {
    var fiatProfit := securedFiatReward - fiatCost;
    || fiatProfit > c.minDeliveryReward
    || Exceeds(Divide(fiatProfit, fiatCost), c.relativeMinDeliveryReward)
  }

  /** Gas and fiat prices as `getGasPrice` and `getPrice` return them. */
  datatype Market = Market(gasPrice: nat, fiatPrice: real)

  /** `evaluateDelivery`; `None` is the null evaluation. */
  function EvaluateDelivery(
    config: Option<EvaluationConfig>, state: Option<RelayState>, estimate: GasEstimate, value: nat,
    destination: Market, source: Market): Option<DeliveryEvaluation>
    requires state.Some? ==> UnsignedBounty(state.value)
  {
    if config.None? || state.None? || state.value.bountyPlacedEvent.None? then None
    else
      var c, s := config.value, state.value;
      var bounty := s.bountyPlacedEvent.value;
      var deliveryCost :=
        CalcGasCost(estimate.gasEstimate, destination.gasPrice, estimate.additionalFeeEstimate + value);
      var deliveryReward :=
        CalcGasReward(estimate.observedGasEstimate, c.unrewardedDeliveryGas, bounty.maxGasDelivery, DeliveryGasPrice(s));
      var maxAckLoss :=
        CalcMaxGasLoss(source.gasPrice, c.unrewardedAckGas, c.verificationAckGas, bounty.maxGasAck, AckGasPrice(s));
      var secured := Adjusted(deliveryReward, c.profitabilityFactor) + maxAckLoss;
      var relay := RelayDelivery(c, Fiat(secured, source.fiatPrice), Fiat(deliveryCost, destination.fiatPrice));
      Some(DeliveryEvaluation(deliveryCost, deliveryReward, maxAckLoss, secured, relay))
  }

  datatype AckEvaluation = AckEvaluation(
    ackCost: nat, ackReward: nat, ackProfit: int, deliveryReward: nat, relayAck: bool)

  /** `evaluateAck`; `usedGasDelivery` is the gas the ack payload reports, 0 if there is none. */
  function EvaluateAck(
    chainId: string, config: Option<EvaluationConfig>, state: Option<RelayState>, estimate: GasEstimate,
    value: nat, source: Market, usedGasDelivery: nat): Option<AckEvaluation>
    requires state.Some? ==> UnsignedBounty(state.value)
  {
    if config.None? || state.None? || state.value.bountyPlacedEvent.None? then None
    else if state.value.bountyPlacedEvent.value.fromChainId != chainId then None
    else
      var c, s := config.value, state.value;
      var bounty := s.bountyPlacedEvent.value;
      var ackCost := CalcGasCost(estimate.gasEstimate, source.gasPrice, estimate.additionalFeeEstimate + value);
      var ackReward :=
        CalcGasReward(estimate.observedGasEstimate, c.unrewardedAckGas, bounty.maxGasAck, AckGasPrice(s));
      var ackProfit := Adjusted(ackReward, c.profitabilityFactor) - ackCost;
      var ownDelivery := s.deliveryGasCost.Some? && s.deliveryGasCost.value != 0;
      var deliveryReward :=
        if ownDelivery then CalcGasReward(usedGasDelivery, 0, bounty.maxGasDelivery, DeliveryGasPrice(s)) else 0;
      var relay :=
        || (ownDelivery && ackProfit + deliveryReward > 0)
        || Fiat(ackProfit, source.fiatPrice) > c.minAckReward
        || Exceeds(Divide(ackProfit as real, ackCost as real), c.relativeMinAckReward);
      Some(AckEvaluation(ackCost, ackReward, ackProfit, deliveryReward, relay))
  }

  lemma AdjustedIsCautious(reward: nat, factor: nat)
    requires factor >= DECIMAL_BASE
    ensures Adjusted(reward, factor) <= reward
  {
  }

  lemma FiatMonotone(a: int, b: int, price: real)
    requires a <= b && price >= 0.0
    ensures Fiat(a, price) <= Fiat(b, price)
  {
  }

  // ---------------------------------------------------------------------------------------------
  // What a relay costs and earns, in the inputs
  // ---------------------------------------------------------------------------------------------

  /** What the bounty offers: gas up to the maxima placed, at the prices of the increase if there was one. */
  datatype Terms = Terms(maxGasDelivery: nat, maxGasAck: nat, deliveryPrice: nat, ackPrice: nat)

  function TermsOf(state: RelayState): Terms
    requires state.bountyPlacedEvent.Some? && UnsignedBounty(state)
  {
    var placed := state.bountyPlacedEvent.value;
    match state.bountyIncreasedEvent
    case None =>
      Terms(placed.maxGasDelivery, placed.maxGasAck, placed.priceOfDeliveryGas, placed.priceOfAckGas)
    case Some(increased) =>
      Terms(placed.maxGasDelivery, placed.maxGasAck, increased.newDeliveryGasPrice, increased.newAckGasPrice)
  }

  /** Gas, additional fee and the value carried. */
  function SubmissionCost(estimate: GasEstimate, gasPrice: nat, value: nat): nat {
    estimate.gasEstimate * gasPrice + estimate.additionalFeeEstimate + value
  }

  /** The gas a bounty pays for: what was observed beyond the unrewarded gas, up to the maximum. */
  function RewardedGas(observed: nat, unrewarded: nat, maximum: nat): nat {
    if observed <= unrewarded then 0
    else if observed <= unrewarded + maximum then observed - unrewarded
    else maximum
  }

  function DeliveryReward(c: EvaluationConfig, t: Terms, observed: nat): nat {
    t.deliveryPrice * RewardedGas(observed, c.unrewardedDeliveryGas, t.maxGasDelivery)
  }

  function AckReward(c: EvaluationConfig, t: Terms, observed: nat): nat {
    t.ackPrice * RewardedGas(observed, c.unrewardedAckGas, t.maxGasAck)
  }

  /** What an ack using x gas in the application's handler will earn. */
  function LaterAckProfit(c: EvaluationConfig, t: Terms, source: Market, x: nat): int {
    var gas := c.unrewardedAckGas + c.verificationAckGas + x;
    AckReward(c, t, gas) - gas * source.gasPrice
  }

  /** The relayer delivered the message itself. */
  predicate OwnDelivery(state: RelayState) {
    state.deliveryGasCost.Some? && state.deliveryGasCost.value != 0
  }

  /** The reward of an own delivery, which the ack releases. */
  function ReleasedReward(state: RelayState, usedGasDelivery: nat): nat
    requires state.bountyPlacedEvent.Some? && UnsignedBounty(state)
  {
    var t := TermsOf(state);
    if OwnDelivery(state) then t.deliveryPrice * RewardedGas(usedGasDelivery, 0, t.maxGasDelivery) else 0
  }

  /** a is the reward divided by the factor (scaled by `DECIMAL_BASE`), rounded down; a factor of zero
      stands for a reward beyond all costs. */
  predicate IsAdjusted(a: nat, reward: nat, factor: nat) {
    if factor == 0 then a == MAX_UINT256
    else a * factor <= reward * DECIMAL_BASE < (a + 1) * factor
  }

  lemma DivisionUnique(a: nat, b: nat, n: nat, d: nat)
    requires d > 0 && a * d <= n < (a + 1) * d && b * d <= n < (b + 1) * d
    ensures a == b
  {
    if a < b {
      MulMonotone(a + 1, b, d);
    } else if b < a {
      MulMonotone(b + 1, a, d);
    }
  }

  lemma AdjustedExactly(a: nat, reward: nat, factor: nat)
    ensures IsAdjusted(a, reward, factor) <==> a == Adjusted(reward, factor)
  {
    if factor > 0 {
      var n := reward * DECIMAL_BASE;
      var q := Adjusted(reward, factor);
      assert q == n / factor && n == q * factor + n % factor;
      assert (q + 1) * factor == q * factor + factor;
      if IsAdjusted(a, reward, factor) {
        DivisionUnique(a, q, n, factor);
      }
    }
  }

  /** The two forms of an ack's profit agree. */
  lemma LaterAckProfitIs(c: EvaluationConfig, t: Terms, source: Market, x: nat)
    ensures LaterAckProfit(c, t, source, x)
            == AckProfit(source.gasPrice, c.unrewardedAckGas, c.verificationAckGas, t.maxGasAck, t.ackPrice, x)
  {
    assert RewardedGas(c.unrewardedAckGas + c.verificationAckGas + x, c.unrewardedAckGas, t.maxGasAck)
        == Min(c.verificationAckGas + x, t.maxGasAck);
  }

  /** The loss is that of the worst ack. */
  ghost predicate LosesAtMost(loss: int, worst: nat, config: EvaluationConfig, t: Terms, source: Market) {
    && loss <= 0 && worst <= t.maxGasAck
    && (forall x: nat :: x <= t.maxGasAck ==> loss <= LaterAckProfit(config, t, source, x))
    && (loss == LaterAckProfit(config, t, source, worst) || loss == 0)
  }

  lemma WorstAck(config: EvaluationConfig, t: Terms, source: Market) returns (loss: int, worst: nat)
    ensures loss == CalcMaxGasLoss(source.gasPrice, config.unrewardedAckGas, config.verificationAckGas, t.maxGasAck,
                                   t.ackPrice)
    ensures LosesAtMost(loss, worst, config, t, source)
  {
    var u, v := config.unrewardedAckGas, config.verificationAckGas;
    loss := CalcMaxGasLoss(source.gasPrice, u, v, t.maxGasAck, t.ackPrice);
    forall x: nat | x <= t.maxGasAck ensures loss <= LaterAckProfit(config, t, source, x) {
      LaterAckProfitIs(config, t, source, x);
      MaxGasLossCoversAllUsages(source.gasPrice, u, v, t.maxGasAck, t.ackPrice, x);
    }
    MaxGasLossIsAttained(source.gasPrice, u, v, t.maxGasAck, t.ackPrice);
    LaterAckProfitIs(config, t, source, 0);
    LaterAckProfitIs(config, t, source, t.maxGasAck);
    worst := if loss == LaterAckProfit(config, t, source, 0) then 0 else t.maxGasAck;
  }

  /** The figures a delivery is judged by are its cost, its reward and the loss of the worst ack: no usage up
      to the maximum loses more, and some usage loses as much, unless none loses anything. */
  lemma DeliveryFigures(
    config: EvaluationConfig, state: RelayState, estimate: GasEstimate, value: nat,
    destination: Market, source: Market) returns (loss: int, worst: nat)
    requires state.bountyPlacedEvent.Some? && UnsignedBounty(state)
    ensures LosesAtMost(loss, worst, config, TermsOf(state), source)
    ensures var cost := SubmissionCost(estimate, destination.gasPrice, value);
            var reward := DeliveryReward(config, TermsOf(state), estimate.observedGasEstimate);
            var secured := Adjusted(reward, config.profitabilityFactor) + loss;
            EvaluateDelivery(Some(config), Some(state), estimate, value, destination, source)
            == Some(DeliveryEvaluation(cost, reward, loss, secured,
                      RelayDelivery(config, Fiat(secured, source.fiatPrice), Fiat(cost, destination.fiatPrice))))
  {
    loss, worst := WorstAck(config, TermsOf(state), source);
  }

  // ---------------------------------------------------------------------------------------------
  // When a delivery is relayed
  // ---------------------------------------------------------------------------------------------

  /** Gain of the delivery for this reward, when the later ack earns `ackProfit`. */
  function Gain(reward: int, ackProfit: int, cost: int, destination: Market, source: Market): real {
    Fiat(reward + ackProfit, source.fiatPrice) - Fiat(cost, destination.fiatPrice)
  }

  predicate GainExceeds(threshold: real, reward: int, ackProfit: int, cost: int, destination: Market, source: Market) {
    Gain(reward, ackProfit, cost, destination, source) > threshold
  }

  /** Neither without an ack nor with one, whatever gas that uses, does the gain fall to the threshold. */
  ghost predicate GainsMoreThan(
    threshold: real, reward: nat, config: EvaluationConfig, t: Terms, cost: nat, destination: Market, source: Market)
  {
    && GainExceeds(threshold, reward, 0, cost, destination, source)
    && forall x: nat :: x <= t.maxGasAck ==>
         GainExceeds(threshold, reward, LaterAckProfit(config, t, source, x), cost, destination, source)
  }

  lemma FiatOrder(a: int, b: int, price: real)
    requires price > 0.0
    ensures a <= b <==> Fiat(a, price) <= Fiat(b, price)
  {
  }

  /** A gain secured against the worst ack is secured against every ack. */
  lemma WorstDecides(
    threshold: real, reward: nat, loss: int, worst: nat, config: EvaluationConfig, t: Terms, cost: nat,
    destination: Market, source: Market)
    requires source.fiatPrice > 0.0 && LosesAtMost(loss, worst, config, t, source)
    ensures GainExceeds(threshold, reward, loss, cost, destination, source)
            <==> GainsMoreThan(threshold, reward, config, t, cost, destination, source)
  {
    FiatOrder(reward + loss, reward, source.fiatPrice);
    forall x: nat | x <= t.maxGasAck
      ensures Gain(reward, loss, cost, destination, source)
              <= Gain(reward, LaterAckProfit(config, t, source, x), cost, destination, source)
    {
      FiatOrder(reward + loss, reward + LaterAckProfit(config, t, source, x), source.fiatPrice);
    }
  }

  lemma QuotientOrder(a: real, b: real, r: real)
    requires b > 0.0
    ensures a / b > r <==> a > r * b
  {
    var q := a / b;
    assert q * b == a;
    if q > r {
      assert (q - r) * b > 0.0;
    } else {
      assert (r - q) * b >= 0.0;
    }
  }

  /** A quotient exceeds a threshold exactly if the dividend exceeds as much of the divisor, also of zero. */
  lemma QuotientExceeds(a: real, b: real, r: real)
    requires b >= 0.0
    ensures Exceeds(Divide(a, b), r) <==> a > r * b
  {
    if b > 0.0 {
      QuotientOrder(a, b, r);
    }
  }

  /** The share of its cost that a delivery has to gain. */
  function RelativeMinimum(config: EvaluationConfig, cost: nat, destination: Market): real {
    config.relativeMinDeliveryReward * Fiat(cost, destination.fiatPrice)
  }

  /** For this reward, the gain beats the minimum, or the relative minimum of the cost, whatever the ack brings. */
  ghost predicate WorthRelaying(
    config: EvaluationConfig, reward: nat, t: Terms, cost: nat, destination: Market, source: Market)
  {
    || GainsMoreThan(config.minDeliveryReward, reward, config, t, cost, destination, source)
    || GainsMoreThan(RelativeMinimum(config, cost, destination), reward, config, t, cost, destination, source)
  }

  /** The decision compares the gain that the worst ack leaves with the two thresholds. */
  lemma DecisionExactly(
    config: EvaluationConfig, reward: nat, loss: int, cost: nat, destination: Market, source: Market)
    requires destination.fiatPrice >= 0.0
    ensures RelayDelivery(config, Fiat(reward + loss, source.fiatPrice), Fiat(cost, destination.fiatPrice))
            <==> || GainExceeds(config.minDeliveryReward, reward, loss, cost, destination, source)
                 || GainExceeds(RelativeMinimum(config, cost, destination), reward, loss, cost, destination, source)
  {
    FiatMonotone(0, cost, destination.fiatPrice);
    QuotientExceeds(Gain(reward, loss, cost, destination, source), Fiat(cost, destination.fiatPrice),
                    config.relativeMinDeliveryReward);
  }

  lemma WorthExactly(
    config: EvaluationConfig, reward: nat, loss: int, worst: nat, t: Terms, cost: nat,
    destination: Market, source: Market)
    requires destination.fiatPrice >= 0.0 && source.fiatPrice > 0.0 && LosesAtMost(loss, worst, config, t, source)
    ensures RelayDelivery(config, Fiat(reward + loss, source.fiatPrice), Fiat(cost, destination.fiatPrice))
            <==> WorthRelaying(config, reward, t, cost, destination, source)
  {
    DecisionExactly(config, reward, loss, cost, destination, source);
    WorstDecides(config.minDeliveryReward, reward, loss, worst, config, t, cost, destination, source);
    WorstDecides(RelativeMinimum(config, cost, destination), reward, loss, worst, config, t, cost, destination, source);
  }

  /** A delivery is relayed exactly if its adjusted reward, together with the worst any ack can bring, beats
      its cost by more than the minimum, or by more than the relative minimum of that cost. */
  lemma DeliveryRelayedExactly(
    config: EvaluationConfig, state: RelayState, estimate: GasEstimate, value: nat,
    destination: Market, source: Market, adjusted: nat)
    requires destination.fiatPrice >= 0.0 && source.fiatPrice > 0.0
    requires state.bountyPlacedEvent.Some? && UnsignedBounty(state)
    requires IsAdjusted(adjusted, DeliveryReward(config, TermsOf(state), estimate.observedGasEstimate),
                        config.profitabilityFactor)
    ensures EvaluateDelivery(Some(config), Some(state), estimate, value, destination, source).value.relayDelivery
            <==> WorthRelaying(config, adjusted, TermsOf(state), SubmissionCost(estimate, destination.gasPrice, value),
                               destination, source)
  {
    var t, cost := TermsOf(state), SubmissionCost(estimate, destination.gasPrice, value);
    var reward := DeliveryReward(config, t, estimate.observedGasEstimate);
    var loss, worst := DeliveryFigures(config, state, estimate, value, destination, source);
    AdjustedExactly(adjusted, reward, config.profitabilityFactor);
    WorthExactly(config, adjusted, loss, worst, t, cost, destination, source);
  }

  /** With its unadjusted reward and an ack using x gas, the delivery earns more than it costs. */
  ghost predicate PaysAt(
    config: EvaluationConfig, state: RelayState, estimate: GasEstimate, value: nat,
    destination: Market, source: Market, x: nat)
    requires state.bountyPlacedEvent.Some? && UnsignedBounty(state)
  {
    var t := TermsOf(state);
    GainExceeds(0.0, DeliveryReward(config, t, estimate.observedGasEstimate), LaterAckProfit(config, t, source, x),
                SubmissionCost(estimate, destination.gasPrice, value), destination, source)
  }

  /** The gain a delivery guarantees, whatever gas the later ack uses. */
  ghost predicate DeliveryPays(
    config: EvaluationConfig, state: RelayState, estimate: GasEstimate, value: nat,
    destination: Market, source: Market)
    requires state.bountyPlacedEvent.Some? && UnsignedBounty(state)
  {
    forall x: nat :: x <= TermsOf(state).maxGasAck ==> PaysAt(config, state, estimate, value, destination, source, x)
  }

  lemma WorthPays(
    config: EvaluationConfig, adjusted: nat, reward: nat, t: Terms, cost: nat, destination: Market, source: Market, x: nat)
    requires ValidConfig(config) && adjusted <= reward && x <= t.maxGasAck
    requires destination.fiatPrice > 0.0 && source.fiatPrice > 0.0
    requires WorthRelaying(config, adjusted, t, cost, destination, source)
    ensures GainExceeds(0.0, reward, LaterAckProfit(config, t, source, x), cost, destination, source)
  {
    var ackProfit := LaterAckProfit(config, t, source, x);
    FiatMonotone(0, cost, destination.fiatPrice);
    assert RelativeMinimum(config, cost, destination) >= 0.0;
    assert GainExceeds(0.0, adjusted, ackProfit, cost, destination, source);
    FiatMonotone(adjusted + ackProfit, reward + ackProfit, source.fiatPrice);
  }

  /** `relayDelivery` with a factor of at least 1 means the delivery pays. */
  lemma DeliveryIsSound(
    config: EvaluationConfig, state: RelayState, estimate: GasEstimate, value: nat,
    destination: Market, source: Market)
    requires ValidConfig(config) && config.profitabilityFactor >= DECIMAL_BASE
    requires destination.fiatPrice > 0.0 && source.fiatPrice > 0.0
    requires state.bountyPlacedEvent.Some? && UnsignedBounty(state)
    requires EvaluateDelivery(Some(config), Some(state), estimate, value, destination, source).value.relayDelivery
    ensures DeliveryPays(config, state, estimate, value, destination, source)
  {
    var t, cost := TermsOf(state), SubmissionCost(estimate, destination.gasPrice, value);
    var reward := DeliveryReward(config, t, estimate.observedGasEstimate);
    var adjusted := Adjusted(reward, config.profitabilityFactor);
    AdjustedExactly(adjusted, reward, config.profitabilityFactor);
    AdjustedIsCautious(reward, config.profitabilityFactor);
    DeliveryRelayedExactly(config, state, estimate, value, destination, source, adjusted);
    forall x: nat | x <= t.maxGasAck ensures PaysAt(config, state, estimate, value, destination, source, x) {
      WorthPays(config, adjusted, reward, t, cost, destination, source, x);
    }
  }

  // -- the same for acks -------------------------------------------------------------------------

  /** The gain of an ack for this reward: the reward of an own delivery counts in. */
  function AckGain(
    reward: nat, state: RelayState, estimate: GasEstimate, value: nat, source: Market, usedGasDelivery: nat): int
    requires state.bountyPlacedEvent.Some? && UnsignedBounty(state)
  {
    reward - SubmissionCost(estimate, source.gasPrice, value) + ReleasedReward(state, usedGasDelivery)
  }

  /** An ack is evaluated exactly on the chain the bounty was placed on, and relayed exactly if it releases
      the reward of an own delivery and makes a gain with it, or if by itself its adjusted reward beats its
      cost by more than the minimum, or by more than the relative minimum of that cost. */
  lemma AckRelayedExactly(
    chainId: string, config: EvaluationConfig, state: RelayState, estimate: GasEstimate, value: nat,
    source: Market, usedGasDelivery: nat, adjusted: nat)
    requires state.bountyPlacedEvent.Some? && UnsignedBounty(state)
    requires IsAdjusted(adjusted, AckReward(config, TermsOf(state), estimate.observedGasEstimate),
                        config.profitabilityFactor)
    ensures var r := EvaluateAck(chainId, Some(config), Some(state), estimate, value, source, usedGasDelivery);
            var cost := SubmissionCost(estimate, source.gasPrice, value);
            && (r.Some? <==> state.bountyPlacedEvent.value.fromChainId == chainId)
            && (r.Some? ==>
                  (r.value.relayAck
                   <==> || (OwnDelivery(state) && AckGain(adjusted, state, estimate, value, source, usedGasDelivery) > 0)
                        || Fiat(adjusted - cost, source.fiatPrice) > config.minAckReward
                        || (adjusted - cost) as real > config.relativeMinAckReward * cost as real))
  {
    var cost := SubmissionCost(estimate, source.gasPrice, value);
    var reward := AckReward(config, TermsOf(state), estimate.observedGasEstimate);
    AdjustedExactly(adjusted, reward, config.profitabilityFactor);
    QuotientExceeds((adjusted - cost) as real, cost as real, config.relativeMinAckReward);
  }

  /** With a factor of at least 1, an ack that is relayed makes a gain by the bounty's own terms; with any
      factor it makes one by the adjusted reward. */
  lemma AckIsSound(
    chainId: string, config: EvaluationConfig, state: RelayState, estimate: GasEstimate, value: nat,
    source: Market, usedGasDelivery: nat, adjusted: nat)
    requires ValidConfig(config) && source.fiatPrice > 0.0
    requires state.bountyPlacedEvent.Some? && UnsignedBounty(state)
    requires IsAdjusted(adjusted, AckReward(config, TermsOf(state), estimate.observedGasEstimate),
                        config.profitabilityFactor)
    requires var r := EvaluateAck(chainId, Some(config), Some(state), estimate, value, source, usedGasDelivery);
             r.Some? && r.value.relayAck
    ensures AckGain(adjusted, state, estimate, value, source, usedGasDelivery) > 0
    ensures config.profitabilityFactor >= DECIMAL_BASE ==>
              AckGain(AckReward(config, TermsOf(state), estimate.observedGasEstimate), state, estimate, value,
                      source, usedGasDelivery) > 0
  {
    var reward, cost := AckReward(config, TermsOf(state), estimate.observedGasEstimate),
                        SubmissionCost(estimate, source.gasPrice, value);
    AckRelayedExactly(chainId, config, state, estimate, value, source, usedGasDelivery, adjusted);
    AdjustedExactly(adjusted, reward, config.profitabilityFactor);
    if config.profitabilityFactor >= DECIMAL_BASE {
      AdjustedIsCautious(reward, config.profitabilityFactor);
    }
    if adjusted <= cost {
      FiatMonotone(adjusted - cost, 0, source.fiatPrice);
      assert config.relativeMinAckReward * cost as real >= 0.0;
    }
  }

  // ---------------------------------------------------------------------------------------------
  // From which factor on the decisions are sound
  // ---------------------------------------------------------------------------------------------

  /** On these inputs, a delivery that is relayed pays. */
  ghost predicate RelayedOnlyIfPays(
    config: EvaluationConfig, state: RelayState, estimate: GasEstimate, value: nat,
    destination: Market, source: Market)
    requires state.bountyPlacedEvent.Some? && UnsignedBounty(state)
  {
    var e := EvaluateDelivery(Some(config), Some(state), estimate, value, destination, source).value;
    e.relayDelivery ==> DeliveryPays(config, state, estimate, value, destination, source)
  }

  ghost predicate DeliverySound(factor: nat) {
    forall config: EvaluationConfig, state: RelayState, estimate: GasEstimate, value: nat,
           destination: Market, source: Market ::
      && ValidConfig(config) && config.profitabilityFactor == factor
      && destination.fiatPrice > 0.0 && source.fiatPrice > 0.0
      && state.bountyPlacedEvent.Some? && UnsignedBounty(state)
      ==> RelayedOnlyIfPays(config, state, estimate, value, destination, source)
  }

  lemma InflatedReward(factor: nat)
    requires factor < DECIMAL_BASE
    ensures Adjusted(10000, factor) > 10000
  {
  }

  /** A bounty that only covers its cost, on a source chain where acks are free. */
  ghost predicate BreaksEven(config: EvaluationConfig, state: RelayState, estimate: GasEstimate)
    requires state.bountyPlacedEvent.Some?
  {
    && config.unrewardedDeliveryGas == 0 && config.minDeliveryReward == 0.0 && config.unrewardedAckGas == 0
    && config.verificationAckGas == 0
    && state.bountyPlacedEvent.value.maxGasDelivery == 10000 && state.bountyPlacedEvent.value.maxGasAck == 0
    && state.bountyIncreasedEvent.None?
    && state.bountyPlacedEvent.value.priceOfDeliveryGas == 1 && state.bountyPlacedEvent.value.priceOfAckGas == 1
    && estimate.gasEstimate == 10000 && estimate.observedGasEstimate == 10000
    && estimate.additionalFeeEstimate == 0
  }

  /** A factor below 1 inflates the reward: such a bounty is relayed, and does not pay. */
  lemma SmallFactorRelaysAtNoGain(
    config: EvaluationConfig, state: RelayState, estimate: GasEstimate, destination: Market, source: Market)
    requires config.profitabilityFactor < DECIMAL_BASE
    requires state.bountyPlacedEvent.Some? && UnsignedBounty(state) && BreaksEven(config, state, estimate)
    requires destination.gasPrice == 1 && destination.fiatPrice == 1.0
    requires source.gasPrice == 0 && source.fiatPrice == 1.0
    ensures !RelayedOnlyIfPays(config, state, estimate, 0, destination, source)
  {
    InflatedReward(config.profitabilityFactor);
    var e := EvaluateDelivery(Some(config), Some(state), estimate, 0, destination, source).value;
    assert e.deliveryCost == 10000;
    assert e.deliveryReward == 10000;
    assert e.maxAckLoss == 0;
    assert e.securedDeliveryReward == Adjusted(10000, config.profitabilityFactor);
    assert Fiat(e.securedDeliveryReward, 1.0) - Fiat(10000, 1.0) > 0.0;
    assert e.relayDelivery;
    assert !PaysAt(config, state, estimate, 0, destination, source, 0);
  }

  /** The decision is trustworthy on all inputs exactly from factor 1 on. */
  lemma DeliverySoundExactly(factor: nat)
    ensures DeliverySound(factor) <==> factor >= DECIMAL_BASE
  {
    if factor < DECIMAL_BASE {
      var config := EvaluationConfig(0, 0.0, 0.0, 0, 0, 0.0, 0.0, factor);
      var placed := BountyPlaced(Transaction("", "", 0), "", "", 10000, 0, "", 1, 1, 0);
      var state := RelayState(StatusBountyPlaced, "", Some(placed), None, None, None, None);
      SmallFactorRelaysAtNoGain(config, state, GasEstimate(10000, 10000, 0), Market(1, 1.0), Market(0, 1.0));
    } else {
      forall config: EvaluationConfig, state: RelayState, estimate: GasEstimate, value: nat,
             destination: Market, source: Market
        | && ValidConfig(config) && config.profitabilityFactor == factor
          && destination.fiatPrice > 0.0 && source.fiatPrice > 0.0
          && state.bountyPlacedEvent.Some? && UnsignedBounty(state)
        ensures RelayedOnlyIfPays(config, state, estimate, value, destination, source)
      {
        if EvaluateDelivery(Some(config), Some(state), estimate, value, destination, source).value.relayDelivery {
          DeliveryIsSound(config, state, estimate, value, destination, source);
        }
      }
    }
  }

  // -- and the acks --------------------------------------------------------------------------------

  /** On these inputs, an ack that is relayed makes a gain. */
  ghost predicate AckedOnlyIfGain(
    chainId: string, config: EvaluationConfig, state: RelayState, estimate: GasEstimate, value: nat,
    source: Market, usedGasDelivery: nat)
    requires UnsignedBounty(state)
  {
    var e := EvaluateAck(chainId, Some(config), Some(state), estimate, value, source, usedGasDelivery);
    e.Some? && e.value.relayAck ==>
      AckGain(AckReward(config, TermsOf(state), estimate.observedGasEstimate), state, estimate, value, source,
              usedGasDelivery) > 0
  }

  ghost predicate AckSound(factor: nat) {
    forall chainId: string, config: EvaluationConfig, state: RelayState, estimate: GasEstimate, value: nat,
           source: Market, usedGasDelivery: nat ::
      && ValidConfig(config) && config.profitabilityFactor == factor && source.fiatPrice > 0.0 && UnsignedBounty(state)
      ==> AckedOnlyIfGain(chainId, config, state, estimate, value, source, usedGasDelivery)
  }

  /** An ack whose reward only covers its cost, of a message somebody else delivered. */
  ghost predicate AckBreaksEven(
    chainId: string, config: EvaluationConfig, state: RelayState, estimate: GasEstimate, source: Market)
  {
    && config.unrewardedAckGas == 0 && config.minAckReward == 0.0
    && state.bountyPlacedEvent.Some? && state.bountyPlacedEvent.value.fromChainId == chainId
    && state.bountyIncreasedEvent.None? && state.deliveryGasCost.None?
    && state.bountyPlacedEvent.value.maxGasAck == 10000 && state.bountyPlacedEvent.value.priceOfAckGas == 1
    && estimate.gasEstimate == 10000 && estimate.observedGasEstimate == 10000 && estimate.additionalFeeEstimate == 0
    && source.gasPrice == 1 && source.fiatPrice == 1.0
  }

  /** For every factor below 1 such an ack is relayed, without a gain. */
  lemma SmallFactorAcksAtNoGain(
    chainId: string, config: EvaluationConfig, state: RelayState, estimate: GasEstimate, source: Market)
    requires config.profitabilityFactor < DECIMAL_BASE && UnsignedBounty(state)
    requires AckBreaksEven(chainId, config, state, estimate, source)
    ensures !AckedOnlyIfGain(chainId, config, state, estimate, 0, source, 0)
  {
    InflatedReward(config.profitabilityFactor);
    var e := EvaluateAck(chainId, Some(config), Some(state), estimate, 0, source, 0).value;
    assert e.ackCost == 10000 && e.ackReward == 10000 && e.deliveryReward == 0;
    assert e.ackProfit == Adjusted(10000, config.profitabilityFactor) - 10000 > 0;
    assert Fiat(e.ackProfit, 1.0) > 0.0;
  }

  lemma AckedForGain(
    chainId: string, config: EvaluationConfig, state: RelayState, estimate: GasEstimate, value: nat,
    source: Market, usedGasDelivery: nat)
    requires ValidConfig(config) && source.fiatPrice > 0.0 && UnsignedBounty(state)
    requires config.profitabilityFactor >= DECIMAL_BASE
    ensures AckedOnlyIfGain(chainId, config, state, estimate, value, source, usedGasDelivery)
  {
    var r := EvaluateAck(chainId, Some(config), Some(state), estimate, value, source, usedGasDelivery);
    if r.Some? && r.value.relayAck {
      var reward := AckReward(config, TermsOf(state), estimate.observedGasEstimate);
      var adjusted := Adjusted(reward, config.profitabilityFactor);
      AdjustedExactly(adjusted, reward, config.profitabilityFactor);
      AckIsSound(chainId, config, state, estimate, value, source, usedGasDelivery, adjusted);
    }
  }

  /** A case that refutes soundness for its factor. */
  lemma AckRefutes(
    chainId: string, config: EvaluationConfig, state: RelayState, estimate: GasEstimate, source: Market)
    requires ValidConfig(config) && config.profitabilityFactor < DECIMAL_BASE && UnsignedBounty(state)
    requires AckBreaksEven(chainId, config, state, estimate, source)
    ensures !AckSound(config.profitabilityFactor)
  {
    SmallFactorAcksAtNoGain(chainId, config, state, estimate, source);
  }

  /** So the decision on acks, too, is trustworthy on all inputs exactly from factor 1 on. */
  lemma AckSoundExactly(factor: nat)
    ensures AckSound(factor) <==> factor >= DECIMAL_BASE
  {
    if factor < DECIMAL_BASE {
      var config := EvaluationConfig(0, 0.0, 0.0, 0, 0, 0.0, 0.0, factor);
      var placed := BountyPlaced(Transaction("", "", 0), "", "", 0, 10000, "", 1, 1, 0);
      var state := RelayState(StatusBountyPlaced, "", Some(placed), None, None, None, None);
      AckRefutes("", config, state, GasEstimate(10000, 10000, 0), Market(1, 1.0));
    } else {
      forall chainId: string, config: EvaluationConfig, state: RelayState, estimate: GasEstimate, value: nat,
             source: Market, usedGasDelivery: nat
        | && ValidConfig(config) && config.profitabilityFactor == factor && source.fiatPrice > 0.0
          && UnsignedBounty(state)
        ensures AckedOnlyIfGain(chainId, config, state, estimate, value, source, usedGasDelivery)
      {
        AckedForGain(chainId, config, state, estimate, value, source, usedGasDelivery);
      }
    }
  }
}
