/** Fee computation of the wallet. Factors are the integers the code scales them to (x 10000). */
module TransactionHelper {
  import opened Common

  const DECIMAL_BASE: nat := 10000
  const MAX_ADJUSTMENT_FACTOR: nat := 5 * 10000

  /** `None` stands for `null` and `undefined` alike. */
  datatype FeeData = FeeData(gasPrice: Option<nat>, maxFeePerGas: Option<nat>, maxPriorityFeePerGas: Option<nat>)

  datatype FeeConfig = FeeConfig(
    gasPriceAdjustmentFactor: Option<nat>,
    maxAllowedGasPrice: Option<nat>,
    maxFeePerGas: Option<nat>,
    maxPriorityFeeAdjustmentFactor: Option<nat>,
    maxAllowedPriorityFeePerGas: Option<nat>,
    priorityAdjustmentFactor: nat)

  /** What the loading of the configuration lets through. */
  predicate Loaded(c: FeeConfig) {
    && DECIMAL_BASE <= c.priorityAdjustmentFactor <= MAX_ADJUSTMENT_FACTOR
    && (c.gasPriceAdjustmentFactor.Some? ==> c.gasPriceAdjustmentFactor.value <= MAX_ADJUSTMENT_FACTOR)
    && (c.maxPriorityFeeAdjustmentFactor.Some? ==> c.maxPriorityFeeAdjustmentFactor.value <= MAX_ADJUSTMENT_FACTOR)
  }

  /** `x * factor / DECIMAL_BASE_BIG_INT` */
  function Scale(x: nat, factor: nat): nat {
    x * factor / DECIMAL_BASE
  }

  function ScaleBy(x: nat, factor: Option<nat>): nat {
    if factor.Some? then Scale(x, factor.value) else x
  }

  function Cap(x: nat, limit: Option<nat>): nat {
    if limit.Some? && limit.value < x then limit.value else x
  }

  function Prioritised(x: Option<nat>, factor: nat): Option<nat> {
    if x.Some? then Some(Scale(x.value, factor)) else None
  }

  /** The adjusted fees, field by field. A zero `gasPrice` is left alone, and a zero `maxFeePerGas` in
      the configuration counts as unset. */
  function NormalFees(c: FeeConfig, f: FeeData): FeeData {
    FeeData(
      if f.gasPrice.Some? && f.gasPrice.value != 0
        then Some(Cap(ScaleBy(f.gasPrice.value, c.gasPriceAdjustmentFactor), c.maxAllowedGasPrice))
        else f.gasPrice,
      if c.maxFeePerGas.Some? && c.maxFeePerGas.value != 0 then c.maxFeePerGas else f.maxFeePerGas,
      if f.maxPriorityFeePerGas.Some?
        then Some(Cap(ScaleBy(f.maxPriorityFeePerGas.value, c.maxPriorityFeeAdjustmentFactor),
                      c.maxAllowedPriorityFeePerGas))
        else None)
  }

  function AdjustedFees(c: FeeConfig, f: FeeData, priority: bool): FeeData {
    var n := NormalFees(c, f);
    if !priority then n
    else FeeData(Prioritised(n.gasPrice, c.priorityAdjustmentFactor),
                 Prioritised(n.maxFeePerGas, c.priorityAdjustmentFactor),
                 Prioritised(n.maxPriorityFeePerGas, c.priorityAdjustmentFactor))
  }

  /** `getFeeDataForTransaction`: EIP-1559 fields if there is a priority fee, else the gas price. */
  function FeesForTransaction(c: FeeConfig, f: FeeData, priority: bool): FeeData {
    var a := AdjustedFees(c, f, priority);
    if a.maxPriorityFeePerGas.Some? then FeeData(None, a.maxFeePerGas, a.maxPriorityFeePerGas)
    else FeeData(a.gasPrice, None, None)
  }

  function LargestFee(c: FeeConfig, previousFee: Option<nat>, priorityFee: Option<nat>): Option<nat> {
    if previousFee.None? then None
    else
      var increased := Scale(previousFee.value, c.priorityAdjustmentFactor);
      if priorityFee.None? || increased > priorityFee.value then Some(increased) else priorityFee
  }

  /** `getIncreasedFeeDataForTransaction` */
  function IncreasedFees(c: FeeConfig, f: FeeData, original: FeeData): FeeData {
    var p := FeesForTransaction(c, f, true);
    FeeData(LargestFee(c, original.gasPrice, p.gasPrice),
            LargestFee(c, original.maxFeePerGas, p.maxFeePerGas),
            LargestFee(c, original.maxPriorityFeePerGas, p.maxPriorityFeePerGas))
  }

  // ---------------------------------------------------------------------------------------------
  // Scaling
  // ---------------------------------------------------------------------------------------------

  lemma ScaleMonotone(x: nat, y: nat, factor: nat)
    requires x <= y
    ensures Scale(x, factor) <= Scale(y, factor)
  {
    assert x * factor <= y * factor;
  }

  /** A factor of at least 1 never lowers a fee, and raises it exactly when the surplus reaches a unit. */
  lemma ScaleRaises(x: nat, factor: nat)
    requires factor >= DECIMAL_BASE
    ensures Scale(x, factor) >= x
    ensures Scale(x, factor) > x <==> x * (factor - DECIMAL_BASE) >= DECIMAL_BASE
  {
    var surplus := x * (factor - DECIMAL_BASE);
    assert x * factor == surplus + x * DECIMAL_BASE;
    assert (surplus + x * DECIMAL_BASE) / DECIMAL_BASE == surplus / DECIMAL_BASE + x;
  }

  // ---------------------------------------------------------------------------------------------
  // The fees the wallet uses
  // ---------------------------------------------------------------------------------------------

  predicate AtMost(fee: Option<nat>, limit: Option<nat>) {
    fee.Some? && limit.Some? ==> fee.value <= limit.value
  }

  /** Normal fees respect the configured caps, priority fees the caps scaled by the priority factor. */
  lemma CapsHold(c: FeeConfig, f: FeeData)
    ensures AtMost(AdjustedFees(c, f, false).maxPriorityFeePerGas, c.maxAllowedPriorityFeePerGas)
    ensures AtMost(AdjustedFees(c, f, false).gasPrice, c.maxAllowedGasPrice)
    ensures AtMost(AdjustedFees(c, f, true).maxPriorityFeePerGas,
                   Prioritised(c.maxAllowedPriorityFeePerGas, c.priorityAdjustmentFactor))
    ensures AtMost(AdjustedFees(c, f, true).gasPrice,
                   Prioritised(c.maxAllowedGasPrice, c.priorityAdjustmentFactor))
  {
    var n := NormalFees(c, f);
    if n.maxPriorityFeePerGas.Some? && c.maxAllowedPriorityFeePerGas.Some? {
      ScaleMonotone(n.maxPriorityFeePerGas.value, c.maxAllowedPriorityFeePerGas.value, c.priorityAdjustmentFactor);
    }
    if n.gasPrice.Some? && c.maxAllowedGasPrice.Some? {
      ScaleMonotone(n.gasPrice.value, c.maxAllowedGasPrice.value, c.priorityAdjustmentFactor);
    }
  }

  /** y is x times the factor, in units of `DECIMAL_BASE`, rounded down; no factor leaves x as it is. */
  predicate ScaledDown(x: nat, factor: Option<nat>, y: nat) {
    match factor
    case None => y == x
    case Some(n) => y * DECIMAL_BASE <= x * n < y * DECIMAL_BASE + DECIMAL_BASE
  }

  /** The fee is the queried one times the factor, or the limit if that is lower. */
  ghost predicate ScaledWithin(queried: nat, factor: Option<nat>, limit: Option<nat>, fee: nat) {
    if limit.Some? && !exists y: nat :: ScaledDown(queried, factor, y) && y <= limit.value
    then fee == limit.value
    else ScaledDown(queried, factor, fee)
  }

  /** There is exactly one such fee. */
  lemma ScaledWithinExactly(queried: nat, factor: Option<nat>, limit: Option<nat>, fee: nat)
    ensures ScaledWithin(queried, factor, limit, fee) <==> fee == Cap(ScaleBy(queried, factor), limit)
  {
    var y := ScaleBy(queried, factor);
    assert ScaledDown(queried, factor, y);
    forall z: nat | ScaledDown(queried, factor, z) ensures z == y {
    }
  }

  /** Normal fees, field by field: the gas price and the priority fee are those queried, times their factors
      and within their limits, the maximum fee is the configured one in place of the queried one. What is
      absent stays absent, but for a configured maximum fee; a gas price of zero stays zero. */
  lemma NormalFeesExactly(c: FeeConfig, f: FeeData)
    ensures var n := AdjustedFees(c, f, false);
            && (n.gasPrice.Some? <==> f.gasPrice.Some?)
            && (f.gasPrice == Some(0) ==> n.gasPrice == Some(0))
            && (f.gasPrice.Some? && f.gasPrice.value > 0 ==>
                  ScaledWithin(f.gasPrice.value, c.gasPriceAdjustmentFactor, c.maxAllowedGasPrice, n.gasPrice.value))
            && (n.maxPriorityFeePerGas.Some? <==> f.maxPriorityFeePerGas.Some?)
            && (f.maxPriorityFeePerGas.Some? ==>
                  ScaledWithin(f.maxPriorityFeePerGas.value, c.maxPriorityFeeAdjustmentFactor,
                               c.maxAllowedPriorityFeePerGas, n.maxPriorityFeePerGas.value))
            && n.maxFeePerGas == if c.maxFeePerGas in {None, Some(0)} then f.maxFeePerGas else c.maxFeePerGas
  {
    var n := AdjustedFees(c, f, false);
    if f.gasPrice.Some? {
      ScaledWithinExactly(f.gasPrice.value, c.gasPriceAdjustmentFactor, c.maxAllowedGasPrice, n.gasPrice.value);
    }
    if f.maxPriorityFeePerGas.Some? {
      ScaledWithinExactly(f.maxPriorityFeePerGas.value, c.maxPriorityFeeAdjustmentFactor,
                          c.maxAllowedPriorityFeePerGas, n.maxPriorityFeePerGas.value);
    }
  }

  /** Priority fees are the normal ones times the priority factor, rounded down. */
  lemma PriorityFeesExactly(c: FeeConfig, f: FeeData)
    ensures var p, n := AdjustedFees(c, f, true), AdjustedFees(c, f, false);
            && ScaledField(n.gasPrice, c.priorityAdjustmentFactor, p.gasPrice)
            && ScaledField(n.maxFeePerGas, c.priorityAdjustmentFactor, p.maxFeePerGas)
            && ScaledField(n.maxPriorityFeePerGas, c.priorityAdjustmentFactor, p.maxPriorityFeePerGas)
  {
  }

  predicate ScaledField(x: Option<nat>, factor: nat, y: Option<nat>) {
    (x.Some? <==> y.Some?) && (x.Some? ==> ScaledDown(x.value, Some(factor), y.value))
  }

  /** A transaction pays a priority fee exactly if one is quoted, and then no gas price. */
  lemma OneFeeModel(c: FeeConfig, f: FeeData, priority: bool)
    ensures var t, a := FeesForTransaction(c, f, priority), AdjustedFees(c, f, priority);
            && t.maxPriorityFeePerGas == a.maxPriorityFeePerGas
            && (t.maxPriorityFeePerGas.Some? <==> f.maxPriorityFeePerGas.Some?)
            && (f.maxPriorityFeePerGas.Some? ==> t.gasPrice.None? && t.maxFeePerGas == a.maxFeePerGas)
            && (f.maxPriorityFeePerGas.None? ==> t.gasPrice == a.gasPrice && t.maxFeePerGas.None?)
  {
  }

  predicate Dominates(a: Option<nat>, b: Option<nat>) {
    (a.Some? <==> b.Some?) && (a.Some? ==> a.value >= b.value)
  }

  lemma PriorityDominates(c: FeeConfig, f: FeeData)
    requires Loaded(c)
    ensures var p, n := AdjustedFees(c, f, true), AdjustedFees(c, f, false);
            && Dominates(p.gasPrice, n.gasPrice)
            && Dominates(p.maxFeePerGas, n.maxFeePerGas)
            && Dominates(p.maxPriorityFeePerGas, n.maxPriorityFeePerGas)
  {
    var n := NormalFees(c, f);
    if n.gasPrice.Some? { ScaleRaises(n.gasPrice.value, c.priorityAdjustmentFactor); }
    if n.maxFeePerGas.Some? { ScaleRaises(n.maxFeePerGas.value, c.priorityAdjustmentFactor); }
    if n.maxPriorityFeePerGas.Some? { ScaleRaises(n.maxPriorityFeePerGas.value, c.priorityAdjustmentFactor); }
  }

  /** How a fee of a replacement relates to the same fee of the original. */
  ghost predicate Repriced(c: FeeConfig, previous: Option<nat>, priorityFee: Option<nat>, fee: Option<nat>) {
    && (fee.Some? <==> previous.Some?)
    && (fee.Some? ==>
          && fee.value >= Scale(previous.value, c.priorityAdjustmentFactor) >= previous.value
          && (fee.value > previous.value <==>
                || previous.value * (c.priorityAdjustmentFactor - DECIMAL_BASE) >= DECIMAL_BASE
                || (priorityFee.Some? && priorityFee.value > previous.value)))
  }

  lemma LargestFeeReprices(c: FeeConfig, previous: Option<nat>, priorityFee: Option<nat>)
    requires Loaded(c)
    ensures Repriced(c, previous, priorityFee, LargestFee(c, previous, priorityFee))
  {
    if previous.Some? {
      ScaleRaises(previous.value, c.priorityAdjustmentFactor);
    }
  }

  /** A replacement has exactly the fee fields of the original, none lower, and says when higher. */
  lemma RepricingRaisesFees(c: FeeConfig, f: FeeData, original: FeeData)
    requires Loaded(c)
    ensures var p, r := FeesForTransaction(c, f, true), IncreasedFees(c, f, original);
            && Repriced(c, original.gasPrice, p.gasPrice, r.gasPrice)
            && Repriced(c, original.maxFeePerGas, p.maxFeePerGas, r.maxFeePerGas)
            && Repriced(c, original.maxPriorityFeePerGas, p.maxPriorityFeePerGas, r.maxPriorityFeePerGas)
  {
    var p := FeesForTransaction(c, f, true);
    LargestFeeReprices(c, original.gasPrice, p.gasPrice);
    LargestFeeReprices(c, original.maxFeePerGas, p.maxFeePerGas);
    LargestFeeReprices(c, original.maxPriorityFeePerGas, p.maxPriorityFeePerGas);
  }

  /** A repriced transaction never pays less than a fresh transaction of normal priority would, on the
      fields both have. */
  lemma ReplacementBeatsFreshFees(c: FeeConfig, f: FeeData, original: FeeData)
    requires Loaded(c)
    ensures var n, r := FeesForTransaction(c, f, false), IncreasedFees(c, f, original);
            && AtMost(n.gasPrice, r.gasPrice)
            && AtMost(n.maxFeePerGas, r.maxFeePerGas)
            && AtMost(n.maxPriorityFeePerGas, r.maxPriorityFeePerGas)
  {
    PriorityDominates(c, f);
  }

  // ---------------------------------------------------------------------------------------------
  // The helper object
  // ---------------------------------------------------------------------------------------------

  class Helper {
    const config: FeeConfig
    var feeData: Option<FeeData>

    constructor (config: FeeConfig)
      ensures this.config == config && feeData.None?
    {
      this.config := config;
      feeData := None;
    }

    /** The queried data if the query went through; stale data otherwise. */
    method UpdateFeeData(queried: Option<FeeData>)
      modifies this`feeData
      ensures feeData == if queried.Some? then queried else old(feeData)
    {
      if queried.Some? {
        feeData := queried;
      }
    }

    /** The spread of the cached data: absent data has no field set. */
    function Cached(): FeeData
      reads this
    {
      if feeData.Some? then feeData.value else FeeData(None, None, None)
    }

    method GetAdjustedFeeData(priority: bool) returns (r: FeeData)
      ensures r == AdjustedFees(config, Cached(), priority)
    {
      r := Cached();
      if config.maxFeePerGas.Some? && config.maxFeePerGas.value != 0 {
        r := r.(maxFeePerGas := config.maxFeePerGas);
      }
      if r.maxPriorityFeePerGas.Some? {
        if config.maxPriorityFeeAdjustmentFactor.Some? {
          r := r.(maxPriorityFeePerGas := Some(Scale(r.maxPriorityFeePerGas.value, config.maxPriorityFeeAdjustmentFactor.value)));
        }
        if && config.maxAllowedPriorityFeePerGas.Some?
           && config.maxAllowedPriorityFeePerGas.value < r.maxPriorityFeePerGas.value
        {
          r := r.(maxPriorityFeePerGas := config.maxAllowedPriorityFeePerGas);
        }
      }
      if r.gasPrice.Some? && r.gasPrice.value != 0 {
        if config.gasPriceAdjustmentFactor.Some? {
          r := r.(gasPrice := Some(Scale(r.gasPrice.value, config.gasPriceAdjustmentFactor.value)));
        }
        if config.maxAllowedGasPrice.Some? && config.maxAllowedGasPrice.value < r.gasPrice.value {
          r := r.(gasPrice := config.maxAllowedGasPrice);
        }
      }
      assert r == NormalFees(config, Cached());
      if priority {
        if r.maxFeePerGas.Some? {
          r := r.(maxFeePerGas := Some(Scale(r.maxFeePerGas.value, config.priorityAdjustmentFactor)));
        }
        if r.maxPriorityFeePerGas.Some? {
          r := r.(maxPriorityFeePerGas := Some(Scale(r.maxPriorityFeePerGas.value, config.priorityAdjustmentFactor)));
        }
        if r.gasPrice.Some? {
          r := r.(gasPrice := Some(Scale(r.gasPrice.value, config.priorityAdjustmentFactor)));
        }
      }
    }
  }
}
