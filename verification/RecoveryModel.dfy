/** The operator commands that undo an externally closed position, as functions over the tables. */
module RecoveryModel {
  import opened Models
  import opened Sizing
  import opened StrategyModel
  import opened StateJson
  import opened Store
  import opened Reconciliation

  /** What a command is configured with. The digest names a recovery and is not assumed to be collision-free. */
  datatype Site = Site(codec: Codec, umcSymbol: string, ccfSymbol: string, tol: Tolerances, fees: FeeConfig,
                       digest: (int, real, int, string) -> string)

  const DUST := 0.000000000001

  predicate HasPosition(st: RuntimeState) {
    st.direction.Some? || Abs(st.position.umcUnits) > DUST || st.position.ccfContracts != 0
  }

  function ClearExposure(st: RuntimeState): RuntimeState {
    st.(direction := None, openTrade := None, position := NO_POSITION, entry := NO_ENTRY, exitMark := NO_EXIT_MARK,
        candidate := NO_CANDIDATE)
  }

  function Save(site: Site, t: Tables, rowIndex: int, now: int, st: RuntimeState): Tables {
    t.(saved := Some(Saved(rowIndex, now, ToJson(site.codec, st))))
  }

  function LoadedState(site: Site, t: Tables): Option<RuntimeState> {
    if t.saved.Some? then FromJson(site.codec, t.saved.value.payload) else None
  }

  // ---------------------------------------------------------------- recover manual-flat

  /** One invocation: broker answers, flags, a stripped reason, and the clock. */
  datatype Request = Request(running: bool, fetches: seq<Fetch>, apply: bool, reason: string, now: int)

  datatype RecoverVerdict =
    | ReasonRequired | RunStillRunning | NoState | NotPaused | NoPosition | DirectionMissing | NotFlat
    | AlreadySquare | DryRun | Repaired | Applied | KeyConflict

  function Residual(site: Site, t: Tables, broker: BrokerName, ccfSymbol: string): real {
    RecordedExposure(t.fills, t.adjustments, broker, if broker == IbkrUmc then site.umcSymbol else ccfSymbol)
  }

  function Repair(site: Site, t: Tables, recovery: string, ccfSymbol: string, req: Request): (RecoverVerdict, Tables)
    requires t.saved.Some?
  {
    var umc := RepairRow(t.adjustments,
                         Adjustment(recovery, IbkrUmc, site.umcSymbol, -Residual(site, t, IbkrUmc, ccfSymbol)), DUST);
    if umc.Collision? then (KeyConflict, t)
    else
      var both := RepairRow(umc.rows,
                            Adjustment(recovery, FubonCcf, ccfSymbol, -Residual(site, t, FubonCcf, ccfSymbol)), DUST);
      if both.Collision? then (KeyConflict, t)
      else
        (Repaired, t.(adjustments := both.rows,
                      events := t.events
                        + [EventRow(t.saved.value.rowIndex, req.now, "manual_flat_ledger_repair", req.reason)]))
  }

  /** Parks the open trade as a pending close, squares the ledger against flat brokers, and clears the strategy. */
  function Apply(site: Site, t: Tables, st: RuntimeState, ccfSymbol: string, req: Request): (RecoverVerdict, Tables)
    requires t.saved.Some?
  {
    var row := t.saved.value.rowIndex;
    var recovery := site.digest(row, st.position.umcUnits, st.position.ccfContracts, ccfSymbol);
    if exists p :: p in t.pendings && p.recovery == recovery then (KeyConflict, t)
    else
      var umc := InsertAdjustment(t.adjustments,
                                  Adjustment(recovery, IbkrUmc, site.umcSymbol,
                                             -Residual(site, t, IbkrUmc, ccfSymbol)));
      if umc.Collision? then (KeyConflict, t)
      else
        var both := InsertAdjustment(umc.rows,
                                     Adjustment(recovery, FubonCcf, ccfSymbol,
                                                -Residual(site, t, FubonCcf, ccfSymbol)));
        if both.Collision? then (KeyConflict, t)
        else
          var parked := t.(pendings := t.pendings
                           + [PendingClose(recovery, req.now, None, row, ccfSymbol, req.reason, st)],
                           adjustments := both.rows,
                           events := t.events + [EventRow(row, req.now, "manual_flat_recovery", req.reason)]);
          (Applied, Save(site, parked, row, req.now, ClearExposure(st).(pnlStatus := Pending)))
  }

  predicate BrokersFlat(site: Site, st: RuntimeState, ccfSymbol: string, fetches: seq<Fetch>) {
    ReportStatus(AllIssues(site.tol, fetches,
                           ExpectedFromStrategy(site.tol, Some(ClearExposure(st)), site.umcSymbol, ccfSymbol)))
                             == Matched
  }

  function RecoverManualFlat(site: Site, t: Tables, req: Request): (RecoverVerdict, Tables) {
    var loaded := LoadedState(site, t);
    if req.apply && req.reason == "" then (ReasonRequired, t)
    else if req.running then (RunStillRunning, t)
    else if loaded.None? then (NoState, t)
    else
      var st := loaded.value;
      var pending := LatestWaiting(t.pendings);
      var already := pending.Some? && !HasPosition(st);
      var ccfSymbol := TradingSymbol(st, site.ccfSymbol);
      if !already && st.state != Paused then (NotPaused, t)
      else if !already && !HasPosition(st) then (NoPosition, t)
      else if !already && st.direction.None? then (DirectionMissing, t)
      else if !BrokersFlat(site, st, ccfSymbol, req.fetches) then (NotFlat, t)
      else if already && Abs(Residual(site, t, IbkrUmc, ccfSymbol)) <= DUST
        && Abs(Residual(site, t, FubonCcf, ccfSymbol)) <= DUST then
        (AlreadySquare, t)
      else if !req.apply then (DryRun, t)
      else if already then Repair(site, t, pending.value.recovery, ccfSymbol, req)
      else Apply(site, t, st, ccfSymbol, req)
  }

  // ---------------------------------------------------------------- clear-pause

  datatype ClearVerdict =
    | NothingToClear | NotPausedNow(state: StrategyState) | Mismatched | Cleared(target: StrategyState)

  /** While a manual close is waiting, the ledger has to agree too. */
  function ClearStatus(site: Site, t: Tables, st: RuntimeState, fetches: seq<Fetch>): Status {
    var expected := ExpectedFromStrategy(site.tol, Some(st), site.umcSymbol, TradingSymbol(st, site.ccfSymbol));
    ReportStatus(AllIssues(site.tol, fetches, expected)
                 + (if LatestWaiting(t.pendings).Some? then LedgerIssues(site.tol, t, expected) else []))
  }

  function ClearPause(site: Site, t: Tables, fetches: seq<Fetch>, now: int): (ClearVerdict, Tables) {
    var loaded := LoadedState(site, t);
    if loaded.None? then (NothingToClear, t)
    else if loaded.value.state != Paused then (NotPausedNow(loaded.value.state), t)
    else if ClearStatus(site, t, loaded.value, fetches) != Matched then (Mismatched, t)
    else
      var target := if HasPosition(loaded.value) then Open else Flat;
      var row := t.saved.value.rowIndex;
      (Cleared(target),
       Save(site, t.(events := t.events + [EventRow(row, now, "clear_pause", "")]), row, now,
            loaded.value.(state := target)))
  }

  // ---------------------------------------------------------------- settle-manual-close

  /** Prices a settlement works from, already resolved from fills, ticks and operator input. */
  datatype Prices = Prices(
    usdTwd: real,
    ccfExitPrice: real,
    entryCcfPrice: real,
    entryUmcPriceUsd: Option<real>,
    realizedUsd: Option<real>,
    umcExitPriceUsd: Option<real>,
    toleranceUsd: real
  )

  predicate Priceable(fees: FeeConfig, open: OpenTrade, p: Prices) {
    && fees.umcContractMultiplier > 0.0 && fees.ccfContractMultiplier > 0.0 && fees.ccfTaxRate >= 0.0
    && p.usdTwd > 0.0 && p.ccfExitPrice >= 0.0 && open.position.umcUnits != 0.0
  }

  datatype Settlement = Settlement(
    exitUmcPriceUsd: real,
    implied: Option<real>,
    umcPnl: real,
    umcLegNet: real,
    ccfPnl: real,
    exitCosts: Costs,
    grossPnlTwd: real,
    totalFeeTwd: real,
    netPnlTwd: real,
    pricesAgree: bool
  )

  function CostsAt(fees: FeeConfig, open: OpenTrade, p: Prices, exitUmcTwdFair: real): Costs
    requires Priceable(fees, open, p)
  {
    FillCosts(open.position.umcUnits, exitUmcTwdFair, open.position.ccfContracts, p.ccfExitPrice, fees)
  }

  function FairOf(fees: FeeConfig, p: Prices, priceUsd: real): real
    requires fees.umcContractMultiplier > 0.0
  {
    priceUsd * p.usdTwd / fees.umcContractMultiplier
  }

  /** The exit price that explains the broker's realised figure, with the exit fee priced at the previous guess. */
  function ImpliedPrice(fees: FeeConfig, open: OpenTrade, p: Prices, passes: nat): real
    requires Priceable(fees, open, p) && p.realizedUsd.Some? && p.entryUmcPriceUsd.Some? && passes > 0
  {
    var guess := if passes == 1 then open.entryUmc else FairOf(fees, p, ImpliedPrice(fees, open, p, passes - 1));
    p.entryUmcPriceUsd.value
    + (p.realizedUsd.value + open.costs.umcFeeTwd / p.usdTwd
       + CostsAt(fees, open, p, guess).umcFeeTwd / p.usdTwd) / open.position.umcUnits
  }

  function Implied(fees: FeeConfig, open: OpenTrade, p: Prices): Option<real>
    requires Priceable(fees, open, p)
  {
    if p.realizedUsd.Some? && p.entryUmcPriceUsd.Some? then Some(ImpliedPrice(fees, open, p, 2)) else None
  }

  function ModelUmcPnl(fees: FeeConfig, open: OpenTrade, exitFair: real): real {
    open.position.umcUnits * (UmcContractTwdPrice(exitFair, fees) - UmcContractTwdPrice(open.entryUmc, fees))
  }

  /**
   Prices the round trip, on the broker's own figure where there is one. None when no exit price can be established.
   */
  function BuildSettlement(fees: FeeConfig, open: OpenTrade, p: Prices): Option<Settlement>
    requires Priceable(fees, open, p)
  {
    var implied := Implied(fees, open, p);
    if p.umcExitPriceUsd.None? && implied.None? then None
    else
      var exitPrice := if p.umcExitPriceUsd.Some? then p.umcExitPriceUsd.value else implied.value;
      var exitFair := FairOf(fees, p, exitPrice);
      var costs := CostsAt(fees, open, p, exitFair);
      var ccfPnl := open.position.ccfUnits * (p.ccfExitPrice - p.entryCcfPrice);
      var umcPnl := if p.realizedUsd.Some? then p.realizedUsd.value * p.usdTwd + open.costs.umcFeeTwd + costs.umcFeeTwd
                    else ModelUmcPnl(fees, open, exitFair);
      var umcLegNet := if p.realizedUsd.Some? then p.realizedUsd.value * p.usdTwd
        else umcPnl - open.costs.umcFeeTwd - costs.umcFeeTwd;
      var gross := umcPnl + ccfPnl;
      var totalFee := open.costs.totalFeeTwd + costs.totalFeeTwd;
      Some(Settlement(exitPrice, implied, umcPnl, umcLegNet, ccfPnl, costs, gross, totalFee, gross - totalFee,
                      implied.Some? && p.umcExitPriceUsd.Some? ==>
                        Abs(p.umcExitPriceUsd.value - implied.value) <= p.toleranceUsd))
  }

  datatype SettleVerdict =
    | SettleReasonRequired | NothingToPriceFrom | EngineRunning | NoPending | NothingToSettleAgainst | AlreadyComplete
    | StillHolding | NoOpenTrade | NoExitPrice | PricesDisagree | SettleDryRun | NotPending | BookedOnce

  datatype SettleRequest = SettleRequest(running: bool, fromBroker: bool, prices: Prices, apply: bool, reason: string,
                                         now: int)

  function SettleManualClose(site: Site, t: Tables, req: SettleRequest): (SettleVerdict, Tables)
    requires LatestWaiting(t.pendings).Some? && LatestWaiting(t.pendings).value.original.openTrade.Some? ==>
               Priceable(site.fees, LatestWaiting(t.pendings).value.original.openTrade.value, req.prices)
  {
    var pending, loaded := LatestWaiting(t.pendings), LoadedState(site, t);
    if req.apply && req.reason == "" then (SettleReasonRequired, t)
    else if !req.fromBroker && req.prices.umcExitPriceUsd.None? then (NothingToPriceFrom, t)
    else if req.running then (EngineRunning, t)
    else if pending.None? then (NoPending, t)
    else if loaded.None? then (NothingToSettleAgainst, t)
    else if loaded.value.pnlStatus == Complete then (AlreadyComplete, t)
    else if HasPosition(loaded.value) then (StillHolding, t)
    else if pending.value.original.openTrade.None? then (NoOpenTrade, t)
    else
      var settlement := BuildSettlement(site.fees, pending.value.original.openTrade.value, req.prices);
      if settlement.None? then (NoExitPrice, t)
      else if !settlement.value.pricesAgree then (PricesDisagree, t)
      else if !req.apply then (SettleDryRun, t)
      else BookSettlement(site, t, loaded.value, pending.value, settlement.value, req)
  }

  function SettledState(st: RuntimeState, s: Settlement): RuntimeState {
    st.(realizedPnl := st.realizedPnl + s.grossPnlTwd - s.exitCosts.totalFeeTwd,
        realizedFeeTwd := st.realizedFeeTwd + s.exitCosts.totalFeeTwd,
        pnlStatus := Complete)
  }

  /** Trade, state, pending row and event in one transaction; refused unless exactly one waiting row matches. */
  function BookSettlement(site: Site, t: Tables, st: RuntimeState, pending: PendingClose, s: Settlement,
                          req: SettleRequest): (SettleVerdict, Tables)
    requires t.saved.Some? && pending.original.openTrade.Some?
  {
    if WaitingCount(t.pendings, pending.recovery) != 1 then (NotPending, t)
    else
      var row := t.saved.value.rowIndex;
      (BookedOnce,
       Save(site, t.(trades := t.trades
                     + [Settled(pending.recovery, pending.original.openTrade.value, s.grossPnlTwd,
                                s.exitCosts.totalFeeTwd)],
                     pendings := SettlePending(t.pendings, pending.recovery, req.now),
                     events := t.events + [EventRow(row, req.now, "manual_close_settled", req.reason)]),
            row, req.now, SettledState(st, s)))
  }
}
