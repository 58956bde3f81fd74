/**
 The pair strategy as a state transition function.

 Orders appear here as requests; the broker that fills them supplies the ids.
 */
module StrategyModel {
  import opened Models
  import opened Sizing

  /** Timestamps are whole seconds. Absent symbols are the empty string. */
  datatype MarketBar = MarketBar(
    rowIndex: int,
    timestamp: int,
    ccfCloseFilled: real,
    umcTwdFair: real,
    spread: real,
    ccfEntryPrice: Option<real>,
    umcEntryTwdFair: Option<real>,
    entryAllowed: bool,
    closeAllowed: bool,
    fridayForceClose: bool,
    ccfSymbol: string
  )

  datatype IndicatorSnapshot = IndicatorSnapshot(
    spread: real,
    mean: Option<real>,
    std: Option<real>,
    zscore: Option<real>,
    zscoreValid: bool,
    entryAllowed: bool,
    closeAllowed: bool
  )

  datatype Action =
    | NoAction | EntrySignal | EntryFill | EntryCancel | ExitSignal | ExitFill | ErrorAction | LiveExecution

  datatype ExitReason =
    | ZscoreExit | FridaySessionEnd | EndOfData | RolloverForceExit | WeekendForceExit | OtherReason(text: string)
  {
    /** Forced exits fill at the close; signalled ones at the open of the bar after the signal. */
    predicate Forced() {
      FridaySessionEnd? || EndOfData? || RolloverForceExit? || WeekendForceExit?
    }
  }

  datatype Candidate = Candidate(direction: Option<Direction>, idx: int, time: Option<int>, zscore: Option<real>)

  datatype ExitMark = ExitMark(idx: int, time: Option<int>, zscore: Option<real>)

  datatype EntryMark = EntryMark(umc: Option<real>, ccf: Option<real>, zscore: Option<real>)

  datatype Position = Position(umcUnits: real, ccfUnits: real, ccfContracts: int, notional: real)

  datatype ContractFields = ContractFields(
    tradingSymbol: Option<string>,
    tradingExpiry: Option<string>,
    eligibleSymbol: Option<string>,
    eligibleExpiry: Option<string>,
    pendingSwitch: bool,
    lastWarmupSymbol: Option<string>,
    policyState: Option<string>
  )

  datatype OpenTrade = OpenTrade(
    signalIdx: int,
    signalTime: Option<int>,
    signalZscore: Option<real>,
    entryIdx: int,
    entryTime: int,
    delayMinutes: int,
    fillZscore: Option<real>,
    direction: Direction,
    entryUmc: real,
    entryCcf: real,
    position: Position,
    rawCcfContracts: real,
    costs: Costs,
    ccfSymbol: string
  )

  datatype Trade = Trade(
    entry: OpenTrade,
    exitMark: ExitMark,
    exitIdx: int,
    exitTime: int,
    exitFillZscore: Option<real>,
    exitUmc: real,
    exitCcf: real,
    umcPnl: real,
    ccfPnl: real,
    grossPnlTwd: real,
    exitCosts: Costs,
    totalFeeTwd: real,
    netPnlTwd: real,
    exitReason: ExitReason,
    holdingMinutes: int
  )

  datatype PnlStatus = Complete | Pending

  datatype RuntimeState = RuntimeState(
    state: StrategyState,
    direction: Option<Direction>,
    candidate: Candidate,
    exitMark: ExitMark,
    entry: EntryMark,
    position: Position,
    realizedPnl: real,
    realizedFeeTwd: real,
    runningMaxEquity: real,
    openTrade: Option<OpenTrade>,
    contract: ContractFields,
    pnlStatus: PnlStatus
  )

  const NO_CANDIDATE := Candidate(None, -1, None, None)
  const NO_EXIT_MARK := ExitMark(-1, None, None)
  const NO_ENTRY := EntryMark(None, None, None)
  const NO_POSITION := Position(0.0, 0.0, 0, 0.0)
  const NO_CONTRACT := ContractFields(None, None, None, None, false, None, None)

  function FreshState(strategy: StrategyConfig): RuntimeState {
    RuntimeState(Flat, None, NO_CANDIDATE, NO_EXIT_MARK, NO_ENTRY, NO_POSITION,
                 0.0, 0.0, strategy.initialCapitalTwd, None, NO_CONTRACT, Complete)
  }

  datatype Report = Report(
    action: Action,
    reason: string,
    requests: seq<OrderRequest>,
    trade: Option<Trade>,
    unrealizedPnl: real,
    equity: real,
    runningMaxEquity: real,
    drawdownTwd: real,
    drawdownPct: real
  )

  /** The strategy's fixed inputs. */
  datatype Setup = Setup(strategy: StrategyConfig, fees: FeeConfig, umcSymbol: string)

  predicate Usable(setup: Setup, bar: MarketBar) {
    && ValidConfig(setup.strategy, setup.fees)
    && bar.ccfCloseFilled > 0.0 && bar.umcTwdFair > 0.0
    && (bar.ccfEntryPrice.Some? ==> bar.ccfEntryPrice.value > 0.0)
    && (bar.umcEntryTwdFair.Some? ==> bar.umcEntryTwdFair.value > 0.0)
  }

  function MinutesBetween(start: int, end: int): int {
    (end - start) / 60
  }

  function EntryDirection(zscore: real, entryZ: real): Option<Direction> {
    if zscore > entryZ then Some(ShortUmcLongCcf)
    else if zscore < -entryZ then Some(LongUmcShortCcf)
    else None
  }

  predicate ShouldExit(zscore: real, direction: Direction, exitZ: real) {
    if direction == ShortUmcLongCcf then zscore < -exitZ else zscore > exitZ
  }

  function OpenUmcPrice(bar: MarketBar): real {
    if bar.umcEntryTwdFair.Some? then bar.umcEntryTwdFair.value else bar.umcTwdFair
  }

  function OpenCcfPrice(bar: MarketBar): real {
    if bar.ccfEntryPrice.Some? then bar.ccfEntryPrice.value else bar.ccfCloseFilled
  }

  function ExitUmcPrice(bar: MarketBar, reason: ExitReason): real {
    if reason.Forced() then bar.umcTwdFair else OpenUmcPrice(bar)
  }

  function ExitCcfPrice(bar: MarketBar, reason: ExitReason): real {
    if reason.Forced() then bar.ccfCloseFilled else OpenCcfPrice(bar)
  }

  function SideOf(units: real): OrderSide {
    if units > 0.0 then Buy else Sell
  }

  function CcfSymbolOf(bar: MarketBar): string {
    if bar.ccfSymbol == "" then "CCF" else bar.ccfSymbol
  }

  /** One order per leg, UMC first: side from the sign, quantity from the magnitude. */
  function PairOrderRequests(setup: Setup, bar: MarketBar, umcUnits: real, ccfContracts: int,
                             umcPrice: real, ccfPrice: real, costs: Costs): (requests: seq<OrderRequest>)
    ensures |requests| == 2
  {
    [OrderRequest(IbkrUmc, setup.umcSymbol, SideOf(umcUnits), Abs(umcUnits), umcPrice, bar.timestamp, bar.rowIndex,
                  costs.umcFeeTwd),
     OrderRequest(FubonCcf, CcfSymbolOf(bar), SideOf(ccfContracts as real), AbsInt(ccfContracts) as real, ccfPrice,
                  bar.timestamp, bar.rowIndex, costs.ccfFeeTwd + costs.ccfTaxTwd)]
  }

  function EntryRequests(setup: Setup, bar: MarketBar, sizing: PositionSizing, costs: Costs): seq<OrderRequest> {
    PairOrderRequests(setup, bar, sizing.umcUnits, sizing.ccfContracts, OpenUmcPrice(bar), OpenCcfPrice(bar), costs)
  }

  /** Exit orders always carry the bar's close, whatever price the trade is booked at. */
  function ExitRequests(setup: Setup, bar: MarketBar, position: Position, costs: Costs): seq<OrderRequest> {
    PairOrderRequests(setup, bar, -position.umcUnits, -position.ccfContracts, bar.umcTwdFair, bar.ccfCloseFilled, costs)
  }

  datatype Step = Step(state: RuntimeState, report: Report)

  function UnrealizedPnl(setup: Setup, st: RuntimeState, bar: MarketBar): real {
    if st.direction.Some? && st.entry.umc.Some? && st.entry.ccf.Some? then
      st.position.umcUnits * (UmcContractTwdPrice(bar.umcTwdFair, setup.fees)
                              - UmcContractTwdPrice(st.entry.umc.value, setup.fees))
      + st.position.ccfUnits * (bar.ccfCloseFilled - st.entry.ccf.value)
    else 0.0
  }

  /** Mark to market: every result updates the running maximum and measures drawdown from it. */
  function Marked(setup: Setup, st: RuntimeState, bar: MarketBar, action: Action, reason: string,
                  requests: seq<OrderRequest>, trade: Option<Trade>): Step
  {
    var unrealized := UnrealizedPnl(setup, st, bar);
    var equity := setup.strategy.initialCapitalTwd + st.realizedPnl + unrealized;
    var peak := Max(st.runningMaxEquity, equity);
    var drawdown := equity - peak;
    Step(st.(runningMaxEquity := peak),
         Report(action, reason, requests, trade, unrealized, equity, peak, drawdown, if peak != 0.0 then drawdown / peak
                else 0.0))
  }

  function EntryExecuted(setup: Setup, st: RuntimeState, bar: MarketBar, snap: IndicatorSnapshot,
                         sizing: PositionSizing,
                         costs: Costs, requests: seq<OrderRequest>, delay: int, reason: string): Step
  {
    if st.candidate.direction.None? then
      Marked(setup, st.(state := Error), bar, ErrorAction, "entry_pending_without_direction", [], None)
    else
      var held := Position(sizing.umcUnits, sizing.ccfUnits, sizing.ccfContracts, sizing.actualLegNotionalTwd);
      var trade := OpenTrade(st.candidate.idx, st.candidate.time, st.candidate.zscore, bar.rowIndex, bar.timestamp,
                             delay,
                             snap.zscore, st.candidate.direction.value, OpenUmcPrice(bar), OpenCcfPrice(bar),
                             held, sizing.rawCcfContracts, costs, bar.ccfSymbol);
      var holding := st.(state := Open,
                        direction := st.candidate.direction,
                        entry := EntryMark(Some(OpenUmcPrice(bar)), Some(OpenCcfPrice(bar)), snap.zscore),
                        position := held,
                        realizedPnl := st.realizedPnl - costs.totalFeeTwd,
                        realizedFeeTwd := st.realizedFeeTwd + costs.totalFeeTwd,
                        openTrade := Some(trade),
                        candidate := NO_CANDIDATE);
      Marked(setup, holding, bar, EntryFill, reason, requests, None)
  }

  /** The closed trade: gross at the exit prices of the reason, fees of both ends. */
  function ClosedTrade(setup: Setup, st: RuntimeState, open: OpenTrade, bar: MarketBar, snap: IndicatorSnapshot,
                       costs: Costs, reason: ExitReason): Trade
  {
    var umcPnl := st.position.umcUnits
      * (UmcContractTwdPrice(ExitUmcPrice(bar, reason), setup.fees) - UmcContractTwdPrice(open.entryUmc, setup.fees));
    var ccfPnl := st.position.ccfUnits * (ExitCcfPrice(bar, reason) - open.entryCcf);
    var gross := umcPnl + ccfPnl;
    var totalFee := open.costs.totalFeeTwd + costs.totalFeeTwd;
    var mark := ExitMark(if st.exitMark.idx != -1 then st.exitMark.idx else bar.rowIndex,
                         if st.exitMark.time.Some? then st.exitMark.time else Some(bar.timestamp),
                         if st.exitMark.zscore.Some? then st.exitMark.zscore else snap.zscore);
    Trade(open, mark, bar.rowIndex, bar.timestamp, snap.zscore, ExitUmcPrice(bar, reason), ExitCcfPrice(bar, reason),
          umcPnl, ccfPnl, gross, costs, totalFee, gross - totalFee, reason,
          MinutesBetween(open.entryTime, bar.timestamp))
  }

  function ExitExecuted(setup: Setup, st: RuntimeState, bar: MarketBar, snap: IndicatorSnapshot, costs: Costs,
                        requests: seq<OrderRequest>, exitReason: ExitReason, reason: string): Step
  {
    if st.openTrade.None? || st.direction.None? then
      Marked(setup, st.(state := Error), bar, ErrorAction, "exit_without_open_trade", [], None)
    else
      var trade := ClosedTrade(setup, st, st.openTrade.value, bar, snap, costs, exitReason);
      var closed := st.(state := Flat,
                        direction := None,
                        openTrade := None,
                        position := NO_POSITION,
                        entry := NO_ENTRY,
                        exitMark := NO_EXIT_MARK,
                        realizedPnl := st.realizedPnl + trade.grossPnlTwd - costs.totalFeeTwd,
                        realizedFeeTwd := st.realizedFeeTwd + costs.totalFeeTwd);
      Marked(setup, closed, bar, ExitFill, reason, requests, Some(trade))
  }

  /** An order attempt before the bar's final mark: new state, action, reason, orders and trade. */
  datatype Attempt = Attempt(state: RuntimeState, action: Action, reason: string, requests: seq<OrderRequest>,
                             trade: Option<Trade>)

  function AsAttempt(step: Step): Attempt {
    Attempt(step.state, step.report.action, step.report.reason, step.report.requests, step.report.trade)
  }

  function EntryAttempt(setup: Setup, st: RuntimeState, bar: MarketBar, snap: IndicatorSnapshot, delay: int): Attempt
    requires Usable(setup, bar)
  {
    if st.candidate.direction.None? then
      Attempt(st.(state := Error), ErrorAction, "entry_pending_without_direction", [], None)
    else
      var sizing := SizePositionForDirection(st.candidate.direction.value, OpenUmcPrice(bar), OpenCcfPrice(bar),
                                             setup.strategy, setup.fees);
      if sizing.None? then
        Attempt(st.(candidate := NO_CANDIDATE, state := Flat), EntryCancel, "ccf_contracts_rounded_to_zero", [], None)
      else
        var costs := FillCosts(sizing.value.umcUnits, OpenUmcPrice(bar), sizing.value.ccfContracts, OpenCcfPrice(bar),
                               setup.fees);
        AsAttempt(EntryExecuted(setup, st, bar, snap, sizing.value, costs,
                                EntryRequests(setup, bar, sizing.value, costs), delay, "entry_filled"))
  }

  function ExitAttempt(setup: Setup, st: RuntimeState, bar: MarketBar, snap: IndicatorSnapshot, exitReason: ExitReason,
                       reason: string): Attempt
    requires Usable(setup, bar)
  {
    if st.openTrade.None? || st.direction.None? then
      Attempt(st.(state := Error), ErrorAction, "exit_without_open_trade", [], None)
    else
      var costs := FillCosts(st.position.umcUnits, ExitUmcPrice(bar, exitReason), st.position.ccfContracts,
                             ExitCcfPrice(bar, exitReason), setup.fees);
      AsAttempt(ExitExecuted(setup, st, bar, snap, costs, ExitRequests(setup, bar, st.position, costs), exitReason,
                             reason))
  }

  /** What a bar does to a pending order, if anything: fill it, cancel it, or leave it. */
  function PendingOrders(setup: Setup, st: RuntimeState, bar: MarketBar, snap: IndicatorSnapshot): (r: (Attempt, bool))
    requires Usable(setup, bar)
    requires st.state == EntryPending && bar.entryAllowed ==> st.candidate.time.Some?
  {
    var idle := Attempt(st, NoAction, "no_action", [], None);
    if st.state == EntryPending && bar.entryAllowed then
      var delay := MinutesBetween(st.candidate.time.value, bar.timestamp);
      if delay <= setup.strategy.maxEntryDelayMinutes then (EntryAttempt(setup, st, bar, snap, delay), true)
      else (Attempt(st.(candidate := NO_CANDIDATE, state := Flat), EntryCancel, "entry_delay_exceeded", [], None),
            false)
    else if st.state == ExitPending && bar.closeAllowed then
      (ExitAttempt(setup, st, bar, snap, ZscoreExit, "exit_filled"), true)
    else (idle, false)
  }

  /** Signals, when no order filled this bar. A forced Friday close pre-empts the z-score exit. */
  function Signals(setup: Setup, a: Attempt, bar: MarketBar, snap: IndicatorSnapshot): Attempt
    requires Usable(setup, bar)
  {
    var st := a.state;
    if st.state == Flat && snap.entryAllowed then
      if snap.zscoreValid && snap.zscore.Some? && EntryDirection(snap.zscore.value, setup.strategy.entryZ).Some? then
        var direction := EntryDirection(snap.zscore.value, setup.strategy.entryZ);
        a.(state := st.(state := EntryPending,
                        candidate := Candidate(direction, bar.rowIndex, Some(bar.timestamp), snap.zscore)),
           action := EntrySignal, reason := "entry_zscore_crossed")
      else a
    else if st.state == Open && st.direction.Some? then
      var forced := if bar.fridayForceClose && snap.closeAllowed
                    then ExitAttempt(setup, st, bar, snap, FridaySessionEnd, "friday_session_end") else a;
      if forced.action == NoAction && snap.closeAllowed && snap.zscoreValid && snap.zscore.Some?
         && ShouldExit(snap.zscore.value, st.direction.value, setup.strategy.exitZ) then
        forced.(state := forced.state.(state := ExitPending,
                                       exitMark := ExitMark(bar.rowIndex, Some(bar.timestamp), snap.zscore)),
                action := ExitSignal, reason := "exit_zscore_crossed")
      else forced
    else a
  }

  function OnBar(setup: Setup, st: RuntimeState, bar: MarketBar, snap: IndicatorSnapshot): Step
    requires Usable(setup, bar)
  {
    if st.state == EntryPending && bar.entryAllowed && st.candidate.time.None? then
      Marked(setup, st.(state := Error), bar, ErrorAction, "entry_pending_without_candidate_time", [], None)
    else
      var (pending, filled) := PendingOrders(setup, st, bar, snap);
      var a := if filled then pending else Signals(setup, pending, bar, snap);
      Marked(setup, a.state, bar, a.action, a.reason, a.requests, a.trade)
  }

  function Finalize(setup: Setup, st: RuntimeState, bar: MarketBar, snap: IndicatorSnapshot): Option<Step>
    requires Usable(setup, bar)
  {
    if st.state == EntryPending then
      Some(Marked(setup, st.(candidate := NO_CANDIDATE, state := Flat), bar, EntryCancel,
                  "end_of_data_before_entry_fill", [], None))
    else if st.direction.None? || st.openTrade.None? then None
    else
      var a := ExitAttempt(setup, st, bar, snap, EndOfData, "exit_filled");
      Some(Marked(setup, a.state.(state := ForcedClosed), bar, a.action, a.reason, a.requests, a.trade))
  }

  function ForceExit(setup: Setup, st: RuntimeState, bar: MarketBar, snap: IndicatorSnapshot,
                     exitReason: ExitReason): Option<Step>
    requires Usable(setup, bar)
  {
    if st.direction.None? || st.openTrade.None? then None
    else
      var a := ExitAttempt(setup, st, bar, snap, exitReason, "exit_filled");
      Some(Marked(setup, a.state, bar, a.action, a.reason, a.requests, a.trade))
  }
}
