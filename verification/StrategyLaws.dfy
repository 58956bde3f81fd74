/** What every strategy step keeps: well-formedness, money, and agreement with the orders it places. */
module StrategyLaws {
  import opened Models
  import opened Sizing
  import opened StrategyModel
  import opened Strategy

  predicate Holding(st: RuntimeState) {
    && st.direction.Some? && st.openTrade.Some?
    && DirectionSigns(st.direction.value, st.position.umcUnits, st.position.ccfContracts)
    && st.openTrade.value.position == st.position
    && st.openTrade.value.direction == st.direction.value
    && st.entry.umc == Some(st.openTrade.value.entryUmc)
    && st.entry.ccf == Some(st.openTrade.value.entryCcf)
  }

  predicate NotHolding(st: RuntimeState) {
    st.direction.None? && st.openTrade.None? && st.position == NO_POSITION
  }

  /** OPEN and EXIT_PENDING hold exactly a directed pair with opposite-signed legs; ERROR never occurs. */
  predicate WellFormed(st: RuntimeState) {
    match st.state
    case Open => Holding(st)
    case ExitPending => Holding(st)
    case Flat => NotHolding(st)
    case ForcedClosed => NotHolding(st)
    case EntryPending => NotHolding(st) && st.candidate.direction.Some? && st.candidate.time.Some?
    case Paused => Holding(st) || NotHolding(st)
    case Error => false
  }

  function OpenFee(trade: Option<OpenTrade>): real {
    if trade.Some? then trade.value.costs.totalFeeTwd else 0.0
  }

  function BookedNet(trade: Option<Trade>): real {
    if trade.Some? then trade.value.netPnlTwd else 0.0
  }

  function BookedFees(trade: Option<Trade>): real {
    if trade.Some? then trade.value.totalFeeTwd else 0.0
  }

  /** Realized PnL moves by what is booked, give or take the entry fee of the trade that is open meanwhile. */
  predicate MoneyKept(before: RuntimeState, after: RuntimeState, trade: Option<Trade>) {
    && after.realizedPnl + OpenFee(after.openTrade) == before.realizedPnl + OpenFee(before.openTrade) + BookedNet(trade)
    && after.realizedFeeTwd - OpenFee(after.openTrade)
       == before.realizedFeeTwd - OpenFee(before.openTrade) + BookedFees(trade)
  }

  /** What the requests would add to each venue's position once filled exactly. */
  function Requested(requests: seq<OrderRequest>, broker: BrokerName, symbol: string): real {
    SignedQuantity(FillsFor(requests, 0, 0), broker, symbol)
  }

  /** The orders of a step carry the strategy from the old position to the new one on both venues. */
  predicate OrdersMatchPositions(setup: Setup, bar: MarketBar, before: RuntimeState, after: RuntimeState,
                                 requests: seq<OrderRequest>) {
    && Requested(requests, IbkrUmc, setup.umcSymbol) == after.position.umcUnits - before.position.umcUnits
    && Requested(requests, FubonCcf, CcfSymbolOf(bar))
       == (after.position.ccfContracts - before.position.ccfContracts) as real
  }

  predicate StepOk(setup: Setup, bar: MarketBar, before: RuntimeState, step: Step) {
    && WellFormed(step.state)
    && step.report.action != ErrorAction
    && MoneyKept(before, step.state, step.report.trade)
    && OrdersMatchPositions(setup, bar, before, step.state, step.report.requests)
    && step.report.drawdownTwd <= 0.0
    && step.report.runningMaxEquity == step.state.runningMaxEquity >= before.runningMaxEquity
    && step.report.equity <= step.report.runningMaxEquity
  }

  predicate AttemptOk(setup: Setup, bar: MarketBar, before: RuntimeState, a: Attempt) {
    && WellFormed(a.state)
    && a.action != ErrorAction
    && MoneyKept(before, a.state, a.trade)
    && OrdersMatchPositions(setup, bar, before, a.state, a.requests)
    && a.state.runningMaxEquity >= before.runningMaxEquity
  }

  lemma PairRequestsMovePosition(setup: Setup, bar: MarketBar, umcUnits: real, ccfContracts: int, umcPrice: real,
                                 ccfPrice: real, costs: Costs)
    requires umcUnits != 0.0 && ccfContracts != 0
    ensures var requests := PairOrderRequests(setup, bar, umcUnits, ccfContracts, umcPrice, ccfPrice, costs);
            && Requested(requests, IbkrUmc, setup.umcSymbol) == umcUnits
            && Requested(requests, FubonCcf, CcfSymbolOf(bar)) == ccfContracts as real
  {
    var requests := PairOrderRequests(setup, bar, umcUnits, ccfContracts, umcPrice, ccfPrice, costs);
    var fills := FillsFor(requests, 0, 0);
    assert fills[1..][1..] == [];
    forall b: BrokerName, symbol: string
      ensures SignedQuantity(fills, b, symbol)
           == (if fills[0].On(b, symbol) then fills[0].Signed() else 0.0)
              + (if fills[1].On(b, symbol) then fills[1].Signed() else 0.0)
    {
      assert SignedQuantity(fills[1..], b, symbol)
        == (if fills[1].On(b, symbol) then fills[1].Signed() else 0.0) + SignedQuantity(fills[1..][1..], b, symbol);
    }
  }

  lemma NothingRequested(broker: BrokerName, symbol: string)
    ensures Requested([], broker, symbol) == 0.0
  {
    assert FillsFor([], 0, 0) == [];
  }

  lemma EntryAttemptOk(setup: Setup, st: RuntimeState, bar: MarketBar, snap: IndicatorSnapshot, delay: int)
    requires Usable(setup, bar) && WellFormed(st) && st.state == EntryPending
    ensures AttemptOk(setup, bar, st, EntryAttempt(setup, st, bar, snap, delay))
    ensures EntryAttempt(setup, st, bar, snap, delay).state.state in {Open, Flat}
  {
    var sizing := SizePositionForDirection(st.candidate.direction.value, OpenUmcPrice(bar), OpenCcfPrice(bar),
                                           setup.strategy, setup.fees);
    if sizing.None? {
      NothingRequested(IbkrUmc, setup.umcSymbol);
      NothingRequested(FubonCcf, CcfSymbolOf(bar));
    } else {
      var costs := FillCosts(sizing.value.umcUnits, OpenUmcPrice(bar), sizing.value.ccfContracts, OpenCcfPrice(bar),
                             setup.fees);
      PairRequestsMovePosition(setup, bar, sizing.value.umcUnits, sizing.value.ccfContracts, OpenUmcPrice(bar),
                               OpenCcfPrice(bar), costs);
    }
  }

  lemma ExitAttemptOk(setup: Setup, st: RuntimeState, bar: MarketBar, snap: IndicatorSnapshot, exitReason: ExitReason,
                      reason: string)
    requires Usable(setup, bar) && Holding(st)
    ensures var a := ExitAttempt(setup, st, bar, snap, exitReason, reason);
            AttemptOk(setup, bar, st, a) && a.state.state == Flat && a.action == ExitFill && a.trade.Some?
  {
    hide FillCosts;
    var costs := FillCosts(st.position.umcUnits, ExitUmcPrice(bar, exitReason), st.position.ccfContracts,
                           ExitCcfPrice(bar, exitReason), setup.fees);
    PairRequestsMovePosition(setup, bar, -st.position.umcUnits, -st.position.ccfContracts, bar.umcTwdFair,
                             bar.ccfCloseFilled, costs);
  }

  lemma SignalsOk(setup: Setup, before: RuntimeState, a: Attempt, bar: MarketBar, snap: IndicatorSnapshot)
    requires Usable(setup, bar) && WellFormed(a.state) && a.action != ErrorAction && a.requests == [] && a.trade == None
    requires a.state.(state := before.state, candidate := before.candidate) == before && WellFormed(before)
    ensures AttemptOk(setup, bar, before, Signals(setup, a, bar, snap))
  {
    NothingRequested(IbkrUmc, setup.umcSymbol);
    NothingRequested(FubonCcf, CcfSymbolOf(bar));
    if a.state.state == Open && bar.fridayForceClose && snap.closeAllowed {
      ExitAttemptOk(setup, a.state, bar, snap, FridaySessionEnd, "friday_session_end");
    }
  }

  lemma MarkOk(setup: Setup, before: RuntimeState, a: Attempt, bar: MarketBar)
    requires AttemptOk(setup, bar, before, a)
    ensures StepOk(setup, bar, before, Marked(setup, a.state, bar, a.action, a.reason, a.requests, a.trade))
  {
  }

  /**
   One bar, from any well-formed state: no error, money kept, orders equal to the position change, no positive drawdown.
   */
  lemma OnBarOk(setup: Setup, st: RuntimeState, bar: MarketBar, snap: IndicatorSnapshot)
    requires Usable(setup, bar) && WellFormed(st)
    ensures StepOk(setup, bar, st, StrategyModel.OnBar(setup, st, bar, snap))
  {
    hide EntryAttempt, ExitAttempt, AttemptOk, Marked, StepOk;
    var (pending, filled) := PendingOrders(setup, st, bar, snap);
    if filled {
      if st.state == EntryPending {
        EntryAttemptOk(setup, st, bar, snap, MinutesBetween(st.candidate.time.value, bar.timestamp));
      } else {
        ExitAttemptOk(setup, st, bar, snap, ZscoreExit, "exit_filled");
      }
      MarkOk(setup, st, pending, bar);
    } else {
      SignalsOk(setup, st, pending, bar, snap);
      MarkOk(setup, st, Signals(setup, pending, bar, snap), bar);
    }
  }

  /** End of data: closes whatever is held or pending, keeps the same laws, and leaves nothing open. */
  lemma FinalizeOk(setup: Setup, st: RuntimeState, bar: MarketBar, snap: IndicatorSnapshot)
    requires Usable(setup, bar) && WellFormed(st)
    ensures var step := StrategyModel.Finalize(setup, st, bar, snap);
            && (step.Some? ==> StepOk(setup, bar, st, step.value) && NotHolding(step.value.state)
                               && step.value.state.state in {Flat, ForcedClosed})
            && (step.None? <==> NotHolding(st) && st.state != EntryPending)
  {
    NothingRequested(IbkrUmc, setup.umcSymbol);
    NothingRequested(FubonCcf, CcfSymbolOf(bar));
    if st.state != EntryPending && Holding(st) {
      ExitAttemptOk(setup, st, bar, snap, EndOfData, "exit_filled");
    }
  }

  lemma ForceExitOk(setup: Setup, st: RuntimeState, bar: MarketBar, snap: IndicatorSnapshot, exitReason: ExitReason)
    requires Usable(setup, bar) && WellFormed(st)
    ensures var step := StrategyModel.ForceExit(setup, st, bar, snap, exitReason);
            && (step.Some? <==> Holding(st))
            && (step.Some? ==> StepOk(setup, bar, st, step.value) && step.value.state.state == Flat)
  {
    if Holding(st) {
      ExitAttemptOk(setup, st, bar, snap, exitReason, "exit_filled");
    }
  }

  /** An entry is market neutral at the prices it fills at, in the direction the z-score chose. */
  lemma EntryIsNeutral(setup: Setup, st: RuntimeState, bar: MarketBar, snap: IndicatorSnapshot)
    requires Usable(setup, bar) && WellFormed(st) && st.state == EntryPending
    requires StrategyModel.OnBar(setup, st, bar, snap).state.state == Open
    ensures var held := StrategyModel.OnBar(setup, st, bar, snap).state;
            && held.position.umcUnits * UmcContractTwdPrice(OpenUmcPrice(bar), setup.fees)
               + held.position.ccfUnits * OpenCcfPrice(bar) == 0.0
            && held.direction == st.candidate.direction
            && MinutesBetween(st.candidate.time.value, bar.timestamp) <= setup.strategy.maxEntryDelayMinutes
  {
    hide FillCosts, EntryRequests, SizePositionForDirection, RoundHalfUpNonNegative;
  }

  /** What a bar signals for a given score: from FLAT an entry against it, while holding an exit once it has crossed. */
  lemma SignalsFollowScore(setup: Setup, st: RuntimeState, bar: MarketBar, snap: IndicatorSnapshot)
    requires Usable(setup, bar) && WellFormed(st) && setup.strategy.entryZ >= 0.0
    ensures var next := StrategyModel.OnBar(setup, st, bar, snap).state;
            var scored := snap.zscoreValid && snap.zscore.Some?;
            && (st.state == Flat ==>
                  (next.state == EntryPending <==>
                     snap.entryAllowed && scored && Abs(snap.zscore.value) > setup.strategy.entryZ))
            && (st.state == Flat && next.state == EntryPending ==>
                  next.candidate.direction
                  == Some(if snap.zscore.value > 0.0 then ShortUmcLongCcf else LongUmcShortCcf))
            && (st.state == Open && !bar.fridayForceClose ==>
                  (next.state == ExitPending <==>
                     snap.closeAllowed && scored
                     && ShouldExit(snap.zscore.value, st.direction.value, setup.strategy.exitZ)))
  {
    hide EntryAttempt, ExitAttempt;
  }

  // ---------------------------------------------------------------- what a trade was signalled by

  /**
   An open trade was signalled by a score beyond the entry threshold, against it, on a bar before the one it filled on.
   */
  predicate EntryScored(setup: Setup, open: OpenTrade) {
    && open.signalZscore.Some?
    && EntryDirection(open.signalZscore.value, setup.strategy.entryZ) == Some(open.direction)
    && 0 <= open.signalIdx < open.entryIdx
  }

  /** The scores and rows behind a state, for a strategy about to see a given row. */
  predicate Scored(setup: Setup, st: RuntimeState, row: int) {
    match st.state
    case EntryPending =>
      && st.candidate.zscore.Some? && 0 <= st.candidate.idx < row
      && EntryDirection(st.candidate.zscore.value, setup.strategy.entryZ) == st.candidate.direction
    case Open => st.openTrade.Some? && EntryScored(setup, st.openTrade.value) && st.openTrade.value.entryIdx < row
    case ExitPending =>
      && st.openTrade.Some? && EntryScored(setup, st.openTrade.value)
      && st.openTrade.value.entryIdx < st.exitMark.idx < row
      && st.exitMark.zscore.Some? && ShouldExit(st.exitMark.zscore.value, st.openTrade.value.direction,
                                                setup.strategy.exitZ)
    case Flat => true
    case ForcedClosed => true
    case _ => false
  }

  /**
   A closed trade was signalled before it filled, and if a score closed it, a later bar's score had crossed to the other
   side and the exit filled on a bar after that one.
   */
  predicate TradeScored(setup: Setup, t: Trade) {
    && EntryScored(setup, t.entry) && t.entry.entryIdx <= t.exitIdx
    && (t.exitReason.ZscoreExit? ==>
          && t.exitMark.zscore.Some? && ShouldExit(t.exitMark.zscore.value, t.entry.direction, setup.strategy.exitZ)
          && t.entry.entryIdx < t.exitMark.idx < t.exitIdx)
  }

  lemma EntryAttemptScored(setup: Setup, st: RuntimeState, bar: MarketBar, snap: IndicatorSnapshot, delay: int)
    requires Usable(setup, bar) && WellFormed(st) && st.state == EntryPending && Scored(setup, st, bar.rowIndex)
    ensures var a := EntryAttempt(setup, st, bar, snap, delay);
            Scored(setup, a.state, bar.rowIndex + 1) && a.trade == None
  {
    hide FillCosts, SizePositionForDirection, EntryRequests, EntryDirection;
  }

  lemma ExitAttemptScored(setup: Setup, st: RuntimeState, bar: MarketBar, snap: IndicatorSnapshot,
                          exitReason: ExitReason,
                          reason: string)
    requires Usable(setup, bar) && Holding(st) && st.state in {Open, ExitPending} && Scored(setup, st, bar.rowIndex)
    requires exitReason.ZscoreExit? ==> st.state == ExitPending
    ensures var a := ExitAttempt(setup, st, bar, snap, exitReason, reason);
            a.state.state == Flat && a.action == ExitFill && a.trade.Some? && TradeScored(setup, a.trade.value)
  {
    hide FillCosts, ExitRequests, EntryDirection, ShouldExit;
  }

  /** One bar on: what lies behind the next state, and behind the trade the bar closed. */
  lemma OnBarScored(setup: Setup, st: RuntimeState, bar: MarketBar, snap: IndicatorSnapshot)
    requires Usable(setup, bar) && WellFormed(st) && Scored(setup, st, bar.rowIndex) && bar.rowIndex >= 0
    ensures var step := StrategyModel.OnBar(setup, st, bar, snap);
            && Scored(setup, step.state, bar.rowIndex + 1)
            && (step.report.trade.Some? ==> TradeScored(setup, step.report.trade.value))
  {
    hide EntryAttempt, ExitAttempt, TradeScored, EntryDirection, ShouldExit;
    if st.state == EntryPending {
      EntryAttemptScored(setup, st, bar, snap, MinutesBetween(st.candidate.time.value, bar.timestamp));
    } else if st.state == Open {
      ExitAttemptScored(setup, st, bar, snap, FridaySessionEnd, "friday_session_end");
    } else if st.state == ExitPending {
      ExitAttemptScored(setup, st, bar, snap, ZscoreExit, "exit_filled");
    }
  }

  lemma FinalizeScored(setup: Setup, st: RuntimeState, bar: MarketBar, snap: IndicatorSnapshot)
    requires Usable(setup, bar) && WellFormed(st) && Scored(setup, st, bar.rowIndex + 1)
    ensures var step := StrategyModel.Finalize(setup, st, bar, snap);
            step.Some? && step.value.report.trade.Some? ==> TradeScored(setup, step.value.report.trade.value)
  {
    hide FillCosts, ExitRequests, EntryDirection, ShouldExit;
  }

  /**
   With thresholds that are not negative, the scores that entered and left such a trade lie on opposite sides of zero.
   */
  lemma ScoresOppose(setup: Setup, t: Trade)
    requires TradeScored(setup, t) && t.exitReason.ZscoreExit? && setup.strategy.entryZ >= 0.0
             && setup.strategy.exitZ >= 0.0
    ensures t.entry.signalZscore.value * t.exitMark.zscore.value < 0.0
    ensures t.entry.direction == if t.entry.signalZscore.value > 0.0 then ShortUmcLongCcf else LongUmcShortCcf
  {
    var entered, left := t.entry.signalZscore.value, t.exitMark.zscore.value;
    if entered > 0.0 {
      MulPositive(entered, -left);
    } else {
      MulPositive(-entered, left);
    }
  }
}
