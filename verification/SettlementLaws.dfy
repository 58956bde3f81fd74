/** What a settlement of a manual close is worth: the cash of its fills, and what a forced exit would have booked. */
module SettlementLaws {
  import opened Models
  import opened Sizing
  import opened StrategyModel
  import opened StrategyLaws
  import opened BarLaws
  import opened StateJson
  import opened Store
  import opened RecoveryModel
  import opened RecoveryLaws
  import opened StoreLife

  /** The cash a CCF trade leaves: contracts bought at one price and sold at the other, a short the other way round. */
  function CcfCash(fees: FeeConfig, contracts: int, entryPrice: real, exitPrice: real): real {
    var size := AbsInt(contracts) as real * fees.ccfContractMultiplier;
    var (entered, left) := (size * entryPrice, size * exitPrice);
    if contracts > 0 then left - entered else entered - left
  }

  lemma CashOfContracts(fees: FeeConfig, contracts: int, entryPrice: real, exitPrice: real)
    ensures CcfCash(fees, contracts, entryPrice, exitPrice)
         == contracts as real * fees.ccfContractMultiplier * (exitPrice - entryPrice)
  {
    var (n, m) := (AbsInt(contracts) as real, fees.ccfContractMultiplier);
    assert n * m * (exitPrice - entryPrice) == n * m * exitPrice - n * m * entryPrice;
    if contracts < 0 {
      assert contracts as real == -n;
      assert -n * m == -(n * m);
    }
  }

  /** A short gains exactly when the exit is below the entry, a long exactly when it is above. */
  lemma CashSign(fees: FeeConfig, contracts: int, entryPrice: real, exitPrice: real)
    requires contracts != 0 && fees.ccfContractMultiplier > 0.0
    ensures CcfCash(fees, contracts, entryPrice, exitPrice) > 0.0
            <==> if contracts > 0 then exitPrice > entryPrice else exitPrice < entryPrice
  {
    var size := AbsInt(contracts) as real * fees.ccfContractMultiplier;
    assert size > 0.0;
    var gap := if contracts > 0 then exitPrice - entryPrice else entryPrice - exitPrice;
    assert CcfCash(fees, contracts, entryPrice, exitPrice) == size * gap;
    ProductSign(size, gap);
  }

  lemma ProductSign(x: real, y: real)
    requires x > 0.0
    ensures x * y > 0.0 <==> y > 0.0
  {
    if y > 0.0 {
      MulPositive(x, y);
    } else {
      MulMonotone(y, 0.0, x);
    }
  }

  /**
   Every settlement, whatever its basis: it exists exactly when an exit price is supplied or implied, its CCF leg is the
   cash of its two fills, its exit costs are those of a fill at the two exit prices, and gross, fees and net add up.
   */
  lemma SettlementIsCash(fees: FeeConfig, open: OpenTrade, p: Prices, exitFair: real)
    requires Priceable(fees, open, p)
    requires open.position.ccfUnits == open.position.ccfContracts as real * fees.ccfContractMultiplier
    ensures BuildSettlement(fees, open, p).Some?
            <==> p.umcExitPriceUsd.Some? || (p.realizedUsd.Some? && p.entryUmcPriceUsd.Some?)
    ensures BuildSettlement(fees, open, p).Some? ==>
              var s := BuildSettlement(fees, open, p).value;
              && (p.umcExitPriceUsd.Some? ==> s.exitUmcPriceUsd == p.umcExitPriceUsd.value)
              && (p.umcExitPriceUsd.None? ==> Some(s.exitUmcPriceUsd) == s.implied)
              && s.ccfPnl == CcfCash(fees, open.position.ccfContracts, p.entryCcfPrice, p.ccfExitPrice)
              && (exitFair * fees.umcContractMultiplier == s.exitUmcPriceUsd * p.usdTwd ==>
                    s.exitCosts == FillCosts(open.position.umcUnits, exitFair, open.position.ccfContracts,
                                             p.ccfExitPrice, fees))
              && s.grossPnlTwd == s.umcPnl + s.ccfPnl
              && s.totalFeeTwd == open.costs.totalFeeTwd + s.exitCosts.totalFeeTwd
              && s.netPnlTwd == s.grossPnlTwd - s.totalFeeTwd
              && (s.pricesAgree <==> (s.implied.Some? && p.umcExitPriceUsd.Some? ==>
                                        Abs(s.exitUmcPriceUsd - s.implied.value) <= p.toleranceUsd))
  {
    CashOfContracts(fees, open.position.ccfContracts, p.entryCcfPrice, p.ccfExitPrice);
    hide FillCosts, ImpliedPrice, CcfCash, ModelUmcPnl;
    if BuildSettlement(fees, open, p).Some? {
      FairIs(fees, p, BuildSettlement(fees, open, p).value.exitUmcPriceUsd, exitFair);
    }
  }

  /** The fair value a USD price stands for is the one worth as much a contract. */
  lemma FairIs(fees: FeeConfig, p: Prices, priceUsd: real, fair: real)
    requires fees.umcContractMultiplier > 0.0
    ensures fair * fees.umcContractMultiplier == priceUsd * p.usdTwd ==> FairOf(fees, p, priceUsd) == fair
  {
    if fair * fees.umcContractMultiplier == priceUsd * p.usdTwd {
      assert FairOf(fees, p, priceUsd) == fair * fees.umcContractMultiplier / fees.umcContractMultiplier;
    }
  }

  /** A bar whose closes are the prices a settlement works from. */
  predicate ClosesAt(fees: FeeConfig, open: OpenTrade, p: Prices, bar: MarketBar) {
    && p.realizedUsd.None? && p.umcExitPriceUsd.Some? && p.entryCcfPrice == open.entryCcf
    && bar.umcTwdFair * fees.umcContractMultiplier == p.umcExitPriceUsd.value * p.usdTwd
    && bar.ccfCloseFilled == p.ccfExitPrice
  }

  /**
   Without a broker figure a settlement books what a forced exit on a bar with those closes would have booked: the same
   gross, the same fees of both ends, the same net.
   */
  lemma SettlesLikeForcedExit(setup: Setup, st: RuntimeState, p: Prices, bar: MarketBar, snap: IndicatorSnapshot,
                              reason: ExitReason)
    requires Usable(setup, bar) && Holding(st) && WellFormed(st) && ClosesAtClose(reason)
    requires Priceable(setup.fees, st.openTrade.value, p) && ClosesAt(setup.fees, st.openTrade.value, p, bar)
    ensures var (s, exit) := (BuildSettlement(setup.fees, st.openTrade.value, p),
                              StrategyModel.ForceExit(setup, st, bar, snap, reason));
            && s.Some? && exit.Some? && exit.value.report.trade.Some?
            && var trade := exit.value.report.trade.value;
               && s.value.grossPnlTwd == trade.grossPnlTwd && s.value.exitCosts == trade.exitCosts
               && s.value.totalFeeTwd == trade.totalFeeTwd && s.value.netPnlTwd == trade.netPnlTwd
               && s.value.pricesAgree
  {
    var open := st.openTrade.value;
    ForceExitAnswers(setup, st, bar, snap, reason);
    FairIs(setup.fees, p, p.umcExitPriceUsd.value, bar.umcTwdFair);
    ModelIsValue(setup.fees, open, bar.umcTwdFair, p.ccfExitPrice, p.entryCcfPrice);
    hide FillCosts, PairOf, StrategyModel.ForceExit, ImpliedPrice, ModelUmcPnl, PairValue, FairOf;
  }

  lemma ModelIsValue(fees: FeeConfig, open: OpenTrade, exitFair: real, ccfExit: real, ccfEntry: real)
    ensures ModelUmcPnl(fees, open, exitFair) + open.position.ccfUnits * (ccfExit - ccfEntry)
         == PairValue(fees, open.position, exitFair, ccfExit) - PairValue(fees, open.position, open.entryUmc, ccfEntry)
  {
    MulSubtracts(UmcContractTwdPrice(exitFair, fees), UmcContractTwdPrice(open.entryUmc, fees), open.position.umcUnits);
    MulSubtracts(ccfExit, ccfEntry, open.position.ccfUnits);
  }

  /**
   The whole command: one booked settlement adds one trade row with exactly the settlement's money, moves realised PnL
   by its gross less the exit fees, completes the PnL, and leaves the rest of the state as it was.
   */
  lemma BookingIsExact(site: Site, setup: Setup, t: Tables, req: SettleRequest)
    requires IsIso(site.codec) && SoundStore(site, setup, t) && PricesUsable(site.fees, req.prices)
    requires SettleManualClose(site, t, req).0 == BookedOnce
    ensures LatestWaiting(t.pendings).Some? && LatestWaiting(t.pendings).value.original.openTrade.Some?
    ensures var (pending, after) := (LatestWaiting(t.pendings).value, SettleManualClose(site, t, req).1);
            var open := pending.original.openTrade.value;
            && Priceable(site.fees, open, req.prices) && BuildSettlement(site.fees, open, req.prices).Some?
            && var s := BuildSettlement(site.fees, open, req.prices).value;
               && after.trades == t.trades + [Settled(pending.recovery, open, s.grossPnlTwd, s.exitCosts.totalFeeTwd)]
               && after.trades[|t.trades|].Net() == s.netPnlTwd && after.trades[|t.trades|].Fees() == s.totalFeeTwd
               && after.fills == t.fills && after.orders == t.orders && after.adjustments == t.adjustments
               && LoadedState(site, t).Some?
               && var st := LoadedState(site, t).value;
                  LoadedState(site, after)
                  == Some(st.(realizedPnl := st.realizedPnl + s.grossPnlTwd - s.exitCosts.totalFeeTwd,
                              realizedFeeTwd := st.realizedFeeTwd + s.exitCosts.totalFeeTwd, pnlStatus := Complete))
  {
    BookedFacts(site, setup, t, req);
    var st := LoadedState(site, t).value;
    var open := LatestWaiting(t.pendings).value.original.openTrade.value;
    hide SettleManualClose, LoadedState, SoundStore, SettlePending, LatestWaiting, WaitingCount;
    var s := BuildSettlement(site.fees, open, req.prices).value;
    SumsUp(site.fees, open, req.prices);
    hide BuildSettlement, ToJson;
    SavedSettled(site, setup, t, st, s, req);
  }

  lemma SumsUp(fees: FeeConfig, open: OpenTrade, p: Prices)
    requires Priceable(fees, open, p) && BuildSettlement(fees, open, p).Some?
    ensures var s := BuildSettlement(fees, open, p).value;
            s.netPnlTwd == s.grossPnlTwd - (open.costs.totalFeeTwd + s.exitCosts.totalFeeTwd)
            && s.totalFeeTwd == open.costs.totalFeeTwd + s.exitCosts.totalFeeTwd
  {
    hide FillCosts, ImpliedPrice, ModelUmcPnl;
  }

  lemma SavedSettled(site: Site, setup: Setup, t: Tables, st: RuntimeState, s: Settlement, req: SettleRequest)
    requires IsIso(site.codec) && t.saved.Some? && LatestWaiting(t.pendings).Some?
    requires LatestWaiting(t.pendings).value.original.openTrade.Some?
    requires BookSettlement(site, t, st, LatestWaiting(t.pendings).value, s, req).0 == BookedOnce
    ensures LoadedState(site, BookSettlement(site, t, st, LatestWaiting(t.pendings).value, s, req).1)
         == Some(SettledState(st, s))
  {
    hide ToJson, FromJson, SettlePending, WaitingCount, LatestWaiting;
    StateRoundTrip(site.codec, SettledState(st, s));
  }
}
