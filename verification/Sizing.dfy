/** Position sizing and the bps cost model. */
module Sizing {
  import opened Models

  /** Fixed lots when ccfLots is given, otherwise sized from the leg notional. */
  datatype StrategyConfig = StrategyConfig(
    entryZ: real,
    exitZ: real,
    legNotionalTwd: real,
    initialCapitalTwd: real,
    maxEntryDelayMinutes: int,
    ccfLots: Option<nat>
  )

  datatype FeeConfig = FeeConfig(
    umcContractMultiplier: real,
    umcFeeBps: real,
    ccfContractMultiplier: real,
    ccfFeePerContractTwd: real,
    ccfTaxRate: real
  )

  /** What the loader and the arithmetic demand: multipliers and lots positive, rates and notional not negative. */
  predicate ValidConfig(strategy: StrategyConfig, fees: FeeConfig) {
    && fees.umcContractMultiplier > 0.0 && fees.ccfContractMultiplier > 0.0 && fees.ccfTaxRate >= 0.0
    && strategy.legNotionalTwd >= 0.0
    && (strategy.ccfLots.Some? ==> strategy.ccfLots.value > 0)
  }

  datatype PositionSizing = PositionSizing(
    umcUnits: real,
    ccfUnits: real,
    ccfContracts: int,
    rawCcfContracts: real,
    actualLegNotionalTwd: real
  )

  datatype Costs = Costs(umcFeeTwd: real, ccfFeeTwd: real, ccfTaxTwd: real, totalFeeTwd: real)

  function UmcContractTwdPrice(umcTwdFair: real, fees: FeeConfig): real {
    umcTwdFair * fees.umcContractMultiplier
  }

  /** A nearest integer, halves going up: no integer is closer. */
  function RoundHalfUpNonNegative(value: real): (n: nat)
    requires value >= 0.0
    ensures n as real - 0.5 <= value < n as real + 0.5
  {
    (value + 0.5).Floor
  }

  function RawContracts(ccfPrice: real, strategy: StrategyConfig, fees: FeeConfig): (raw: real)
    requires ValidConfig(strategy, fees) && ccfPrice > 0.0
    ensures raw >= 0.0
  {
    if strategy.ccfLots.Some? then strategy.ccfLots.value as real
    else QuotientNonNegative(strategy.legNotionalTwd, ccfPrice * fees.ccfContractMultiplier);
         strategy.legNotionalTwd / (ccfPrice * fees.ccfContractMultiplier)
  }

  /** The whole number nearest to a value, a half going up. */
  predicate Nearest(n: int, value: real) {
    n as real - 0.5 <= value < n as real + 0.5
  }

  lemma NearestIsOne(a: int, b: int, value: real)
    requires Nearest(a, value) && Nearest(b, value)
    ensures a == b
  {
  }

  /** As many contracts as are configured, or the whole number nearest to the notional over one contract's value. */
  predicate WantedLots(n: int, ccfPrice: real, strategy: StrategyConfig, fees: FeeConfig)
    requires fees.ccfContractMultiplier > 0.0 && ccfPrice > 0.0
  {
    if strategy.ccfLots.Some? then n == strategy.ccfLots.value
    else Nearest(n, strategy.legNotionalTwd / (ccfPrice * fees.ccfContractMultiplier))
  }

  /** Whole contracts: the configured lots, or the notional's worth to the nearest contract. */
  function ContractCount(ccfPrice: real, strategy: StrategyConfig, fees: FeeConfig): (n: nat)
    requires ValidConfig(strategy, fees) && ccfPrice > 0.0
    ensures n == 0 <==> strategy.ccfLots.None? && RawContracts(ccfPrice, strategy, fees) < 0.5
    ensures WantedLots(n, ccfPrice, strategy, fees)
  {
    if strategy.ccfLots.Some? then strategy.ccfLots.value
    else RoundHalfUpNonNegative(RawContracts(ccfPrice, strategy, fees))
  }

  /**
   The sized pair is market neutral at the prices it was sized from, with the signs the direction asks for.
   None means the CCF leg rounds to zero contracts.
   */
  function SizePositionForDirection(direction: Direction, umcPrice: real, ccfPrice: real, strategy: StrategyConfig,
                                    fees: FeeConfig)
    : (r: Option<PositionSizing>)
    requires ValidConfig(strategy, fees) && umcPrice > 0.0 && ccfPrice > 0.0
    ensures r.Some? ==>
              && r.value.umcUnits * UmcContractTwdPrice(umcPrice, fees) + r.value.ccfUnits * ccfPrice == 0.0
              && r.value.ccfUnits == r.value.ccfContracts as real * fees.ccfContractMultiplier
              && DirectionSigns(direction, r.value.umcUnits, r.value.ccfContracts)
  {
    var contracts: int := ContractCount(ccfPrice, strategy, fees);
    if contracts == 0 then None
    else
      var raw := RawContracts(ccfPrice, strategy, fees);
      var ccfUnits := contracts as real * fees.ccfContractMultiplier;
      var notional := ccfUnits * ccfPrice;
      var unitPrice := UmcContractTwdPrice(umcPrice, fees);
      QuotientPositive(notional, unitPrice);
      var umcUnits := notional / unitPrice;
      if direction == ShortUmcLongCcf then
        Some(PositionSizing(-umcUnits, ccfUnits, contracts, raw, notional))
      else
        Some(PositionSizing(umcUnits, -ccfUnits, -contracts, raw, notional))
  }

  predicate DirectionSigns(direction: Direction, umcUnits: real, ccfContracts: int) {
    if direction == ShortUmcLongCcf then umcUnits < 0.0 && ccfContracts > 0 else umcUnits > 0.0 && ccfContracts < 0
  }

  lemma QuotientPositive(a: real, b: real)
    requires a > 0.0 && b > 0.0
    ensures a / b > 0.0 && (a / b) * b == a && (-(a / b)) * b == -a
  {
  }

  lemma QuotientNonNegative(a: real, b: real)
    requires a >= 0.0 && b > 0.0
    ensures a / b >= 0.0
  {
  }

  /** The futures tax on one contract, in whole TWD. */
  function TaxPerContract(ccfPrice: real, fees: FeeConfig): (tax: nat)
    requires fees.ccfContractMultiplier > 0.0 && fees.ccfTaxRate >= 0.0 && ccfPrice >= 0.0
    ensures Nearest(tax, ccfPrice * fees.ccfContractMultiplier * fees.ccfTaxRate)
  {
    var taxable := ccfPrice * fees.ccfContractMultiplier;
    assert taxable >= 0.0 && taxable * fees.ccfTaxRate >= 0.0;
    RoundHalfUpNonNegative(taxable * fees.ccfTaxRate)
  }

  function FillCosts(umcUnits: real, umcPrice: real, ccfContracts: int, ccfPrice: real, fees: FeeConfig): (c: Costs)
    requires fees.ccfContractMultiplier > 0.0 && fees.ccfTaxRate >= 0.0 && ccfPrice >= 0.0
    ensures c.totalFeeTwd == c.umcFeeTwd + c.ccfFeeTwd + c.ccfTaxTwd
  {
    var umcFee := Abs(umcUnits) * UmcContractTwdPrice(umcPrice, fees) * fees.umcFeeBps / 10000.0;
    var ccfFee := AbsInt(ccfContracts) as real * fees.ccfFeePerContractTwd;
    var ccfTax := AbsInt(ccfContracts) as real * TaxPerContract(ccfPrice, fees) as real;
    Costs(umcFee, ccfFee, ccfTax, umcFee + ccfFee + ccfTax)
  }

  /**
   What a position is sized to: nothing exactly when no lots are configured and the notional is worth less than half a
   contract, otherwise the wanted lots, with the notional they are worth.
   */
  lemma SizesWantedLots(direction: Direction, umcPrice: real, ccfPrice: real, strategy: StrategyConfig, fees: FeeConfig)
    requires ValidConfig(strategy, fees) && umcPrice > 0.0 && ccfPrice > 0.0
    ensures var r := SizePositionForDirection(direction, umcPrice, ccfPrice, strategy, fees);
            && (r.None? <==> strategy.ccfLots.None?
                             && 2.0 * strategy.legNotionalTwd < ccfPrice * fees.ccfContractMultiplier)
            && (r.Some? ==>
                  && WantedLots(AbsInt(r.value.ccfContracts), ccfPrice, strategy, fees)
                  && r.value.actualLegNotionalTwd == Abs(r.value.ccfUnits) * ccfPrice)
  {
    var value := ccfPrice * fees.ccfContractMultiplier;
    if strategy.ccfLots.None? {
      HalfContract(strategy.legNotionalTwd, value);
      assert RawContracts(ccfPrice, strategy, fees) == strategy.legNotionalTwd / value;
    }
    assert SizePositionForDirection(direction, umcPrice, ccfPrice, strategy, fees).None?
      <==> ContractCount(ccfPrice, strategy, fees) == 0;
    hide UmcContractTwdPrice;
  }

  lemma HalfContract(notional: real, value: real)
    requires value > 0.0
    ensures notional / value < 0.5 <==> 2.0 * notional < value
  {
    var share := notional / value;
    assert share * value == notional;
    if share < 0.5 {
      MulMonotone(share, 0.5, value);
    } else {
      MulMonotone(0.5, share, value);
    }
  }

  /**
   What a fill costs: the UMC rate on its value, one fee for each contract, and for each contract the same tax, the
   whole number nearest to the rate on its value.
   */
  lemma CostsPerContract(umcUnits: real, umcPrice: real, ccfContracts: int, ccfPrice: real, fees: FeeConfig, tax: int)
    requires fees.ccfContractMultiplier > 0.0 && fees.ccfTaxRate >= 0.0 && ccfPrice >= 0.0
    requires Nearest(tax, ccfPrice * fees.ccfContractMultiplier * fees.ccfTaxRate)
    ensures var c := FillCosts(umcUnits, umcPrice, ccfContracts, ccfPrice, fees);
            && c.ccfFeeTwd == AbsInt(ccfContracts) as real * fees.ccfFeePerContractTwd
            && c.ccfTaxTwd == AbsInt(ccfContracts) as real * tax as real
            && c.umcFeeTwd * 10000.0 == Abs(umcUnits) * (umcPrice * fees.umcContractMultiplier) * fees.umcFeeBps
            && c.totalFeeTwd == c.umcFeeTwd + c.ccfFeeTwd + c.ccfTaxTwd
  {
    NearestIsOne(tax, TaxPerContract(ccfPrice, fees), ccfPrice * fees.ccfContractMultiplier * fees.ccfTaxRate);
    hide UmcContractTwdPrice, TaxPerContract;
    TimesRate(Abs(umcUnits), UmcContractTwdPrice(umcPrice, fees), fees.umcFeeBps);
  }

  lemma TimesRate(units: real, price: real, bps: real)
    ensures units * price * bps / 10000.0 * 10000.0 == units * price * bps
  {
  }

  /** Closing a pair in two parts at one price costs exactly what closing it at once does. */
  lemma CostsAdd(umc: real, umcMore: real, umcPrice: real, ccf: nat, ccfMore: nat, ccfPrice: real, fees: FeeConfig)
    requires fees.ccfContractMultiplier > 0.0 && fees.ccfTaxRate >= 0.0 && ccfPrice >= 0.0
    requires umc >= 0.0 && umcMore >= 0.0
    ensures FillCosts(umc + umcMore, umcPrice, ccf + ccfMore, ccfPrice, fees).totalFeeTwd
         == FillCosts(umc, umcPrice, ccf, ccfPrice, fees).totalFeeTwd
            + FillCosts(umcMore, umcPrice, ccfMore, ccfPrice, fees).totalFeeTwd
  {
    var tax := TaxPerContract(ccfPrice, fees);
    CostsPerContract(umc, umcPrice, ccf, ccfPrice, fees, tax);
    CostsPerContract(umcMore, umcPrice, ccfMore, ccfPrice, fees, tax);
    CostsPerContract(umc + umcMore, umcPrice, ccf + ccfMore, ccfPrice, fees, tax);
    hide FillCosts;
    var price := umcPrice * fees.umcContractMultiplier;
    assert (umc + umcMore) * price * fees.umcFeeBps == umc * price * fees.umcFeeBps + umcMore * price * fees.umcFeeBps;
  }
}
