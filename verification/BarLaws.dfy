/** What one bar makes of every strategy state, told from the bar, its score and the configuration. */
module BarLaws {
  import opened Models
  import opened Sizing
  import opened StrategyModel
  import opened StrategyLaws

  /** The bar may enter in this direction: entries are allowed and the score lies beyond the threshold against it. */
  predicate CallsEntry(setup: Setup, snap: IndicatorSnapshot, direction: Direction) {
    && snap.entryAllowed && snap.zscoreValid && snap.zscore.Some?
    && var (z, entryZ) := (snap.zscore.value, setup.strategy.entryZ);
       if direction == ShortUmcLongCcf then z > entryZ else z < -entryZ && z <= entryZ
  }

  predicate CallsSomeEntry(setup: Setup, snap: IndicatorSnapshot) {
    CallsEntry(setup, snap, ShortUmcLongCcf) || CallsEntry(setup, snap, LongUmcShortCcf)
  }

  /** The bar may leave this direction: closing is allowed and the score has crossed to the other side. */
  predicate CallsExit(setup: Setup, snap: IndicatorSnapshot, direction: Direction) {
    && snap.closeAllowed && snap.zscoreValid && snap.zscore.Some?
    && if direction == ShortUmcLongCcf then snap.zscore.value < -setup.strategy.exitZ
       else snap.zscore.value > setup.strategy.exitZ
  }

  /** A signal given at this time is still good: less than a minute past the delay limit. */
  predicate InTime(setup: Setup, since: int, bar: MarketBar) {
    bar.timestamp - since < 60 * (setup.strategy.maxEntryDelayMinutes + 1)
  }

  /** The configured size comes to a contract at this price. */
  predicate WorthTrading(setup: Setup, ccfPrice: real) {
    setup.strategy.ccfLots.Some? || 2.0 * setup.strategy.legNotionalTwd >= ccfPrice * setup.fees.ccfContractMultiplier
  }

  /** The state as it was, but for the running maximum. */
  predicate Unmoved(before: RuntimeState, after: RuntimeState) {
    after == before.(runningMaxEquity := after.runningMaxEquity)
  }

  predicate Idle(before: RuntimeState, step: Step) {
    && Unmoved(before, step.state)
    && step.report.action == NoAction && step.report.requests == [] && step.report.trade == None
  }

  /** An entry is now pending in this direction, marked with the bar that called it. */
  predicate Pended(before: RuntimeState, bar: MarketBar, snap: IndicatorSnapshot, direction: Direction, step: Step) {
    && Unmoved(before.(state := EntryPending,
                       candidate := Candidate(Some(direction), bar.rowIndex, Some(bar.timestamp), snap.zscore)),
               step.state)
    && step.report.action == EntrySignal && step.report.requests == [] && step.report.trade == None
  }

  predicate ExitPended(before: RuntimeState, bar: MarketBar, snap: IndicatorSnapshot, step: Step) {
    && Unmoved(before.(state := ExitPending, exitMark := ExitMark(bar.rowIndex, Some(bar.timestamp), snap.zscore)),
               step.state)
    && step.report.action == ExitSignal && step.report.requests == [] && step.report.trade == None
  }

  predicate Cancelled(before: RuntimeState, step: Step) {
    && Unmoved(before.(state := Flat, candidate := NO_CANDIDATE), step.state)
    && step.report.action == EntryCancel && step.report.requests == [] && step.report.trade == None
  }

  /** Value of a pair at given prices. */
  function PairValue(fees: FeeConfig, position: Position, umcPrice: real, ccfPrice: real): real {
    position.umcUnits * (umcPrice * fees.umcContractMultiplier) + position.ccfUnits * ccfPrice
  }

  /** The pair wanted at given prices: whole lots as configured, worth nothing together, in the direction's signs. */
  predicate WantedPair(setup: Setup, direction: Direction, position: Position, umcPrice: real, ccfPrice: real)
    requires ValidConfig(setup.strategy, setup.fees) && ccfPrice > 0.0
  {
    && WantedLots(AbsInt(position.ccfContracts), ccfPrice, setup.strategy, setup.fees)
    && position.ccfUnits == position.ccfContracts as real * setup.fees.ccfContractMultiplier
    && PairValue(setup.fees, position, umcPrice, ccfPrice) == 0.0
    && DirectionSigns(direction, position.umcUnits, position.ccfContracts)
    && position.notional == Abs(position.ccfUnits) * ccfPrice
  }

  /** The prices of a bar's open: the leg's own entry price, or its close where the bar has none. */
  predicate OpensAt(bar: MarketBar, umcPrice: real, ccfPrice: real) {
    && (bar.umcEntryTwdFair == Some(umcPrice) || (bar.umcEntryTwdFair.None? && umcPrice == bar.umcTwdFair))
    && (bar.ccfEntryPrice == Some(ccfPrice) || (bar.ccfEntryPrice.None? && ccfPrice == bar.ccfCloseFilled))
  }

  lemma OpenPrices(bar: MarketBar)
    ensures OpensAt(bar, OpenUmcPrice(bar), OpenCcfPrice(bar))
  {
  }

  /**
   The entry filled: the wanted pair is held at the bar's open prices, its fees are charged, and its orders are out at
   those prices.
   */
  predicate Entered(setup: Setup, before: RuntimeState, bar: MarketBar, step: Step)
    requires Usable(setup, bar)
  {
    var (umc, ccf, after) := (OpenUmcPrice(bar), OpenCcfPrice(bar), step.state);
    && OpensAt(bar, umc, ccf)
    && after.state == Open && after.direction == before.candidate.direction && after.openTrade.Some?
    && after.direction.Some? && WantedPair(setup, after.direction.value, after.position, umc, ccf)
    && after.openTrade.value.position == after.position && after.openTrade.value.direction == after.direction.value
    && after.openTrade.value.signalIdx == before.candidate.idx
    && after.openTrade.value.signalTime == before.candidate.time
    && after.openTrade.value.signalZscore == before.candidate.zscore
    && after.openTrade.value.entryIdx == bar.rowIndex && after.openTrade.value.entryTime == bar.timestamp
    && after.openTrade.value.entryUmc == umc && after.openTrade.value.entryCcf == ccf
    && after.openTrade.value.costs
       == FillCosts(after.position.umcUnits, umc, after.position.ccfContracts, ccf, setup.fees)
    && Unmoved(before.(state := Open, direction := before.candidate.direction, candidate := NO_CANDIDATE,
                       position := after.position, openTrade := after.openTrade,
                       entry := EntryMark(Some(umc), Some(ccf), after.openTrade.value.fillZscore),
                       realizedPnl := before.realizedPnl - after.openTrade.value.costs.totalFeeTwd,
                       realizedFeeTwd := before.realizedFeeTwd + after.openTrade.value.costs.totalFeeTwd), after)
    && step.report.action == EntryFill && step.report.trade == None
    && PairOf(step.report.requests, setup, bar, after.position.umcUnits, after.position.ccfContracts, umc, ccf,
              after.openTrade.value.costs)
  }

  /** A market pair: UMC first, each leg its signed amount at its price on this bar, carrying its own fees. */
  predicate PairOf(requests: seq<OrderRequest>, setup: Setup, bar: MarketBar, umcUnits: real, ccfContracts: int,
                   umcPrice: real, ccfPrice: real, costs: Costs) {
    && |requests| == 2
    && requests[0].broker == IbkrUmc && requests[0].symbol == setup.umcSymbol && requests[0].price == umcPrice
    && requests[0].side.Sign() * requests[0].quantity == umcUnits && requests[0].quantity >= 0.0
    && requests[0].feeTwd == costs.umcFeeTwd
    && requests[1].broker == FubonCcf && requests[1].price == ccfPrice
    && requests[1].symbol == (if bar.ccfSymbol == "" then "CCF" else bar.ccfSymbol)
    && requests[1].side.Sign() * requests[1].quantity == ccfContracts as real && requests[1].quantity >= 0.0
    && requests[1].feeTwd == costs.ccfFeeTwd + costs.ccfTaxTwd
    && forall r :: r in requests ==> r.timestamp == bar.timestamp && r.rowIndex == bar.rowIndex
  }

  /** Exits for these reasons are priced at the bar's close, all others at its open. */
  predicate ClosesAtClose(reason: ExitReason) {
    reason in {FridaySessionEnd, EndOfData, RolloverForceExit, WeekendForceExit}
  }

  /**
   What was held is closed for this reason: priced at the bar's close when forced and at its open when signalled, fees
   of both ends deducted, and orders out that reverse the position at the close.
   */
  predicate Exited(setup: Setup, before: RuntimeState, bar: MarketBar, reason: ExitReason, state: RuntimeState,
                   requests: seq<OrderRequest>, trade: Option<Trade>)
    requires Usable(setup, bar)
  {
    var held := before.position;
    && before.openTrade.Some? && trade.Some?
    && var (t, open) := (trade.value, before.openTrade.value);
       var (umc, ccf) := if ClosesAtClose(reason) then (bar.umcTwdFair, bar.ccfCloseFilled)
                         else (OpenUmcPrice(bar), OpenCcfPrice(bar));
       && t.entry == open && t.exitReason == reason && t.exitIdx == bar.rowIndex && t.exitTime == bar.timestamp
       && t.exitUmc == umc && t.exitCcf == ccf && (ClosesAtClose(reason) || OpensAt(bar, umc, ccf))
       && t.exitCosts == FillCosts(held.umcUnits, umc, held.ccfContracts, ccf, setup.fees)
       && t.grossPnlTwd == PairValue(setup.fees, held, umc, ccf)
                           - PairValue(setup.fees, held, open.entryUmc, open.entryCcf)
       && t.totalFeeTwd == open.costs.totalFeeTwd + t.exitCosts.totalFeeTwd
       && t.netPnlTwd == t.grossPnlTwd - t.totalFeeTwd
       && Unmoved(before.(state := state.state, direction := None, openTrade := None, position := NO_POSITION,
                          entry := NO_ENTRY, exitMark := NO_EXIT_MARK,
                          realizedPnl := before.realizedPnl + t.grossPnlTwd - t.exitCosts.totalFeeTwd,
                          realizedFeeTwd := before.realizedFeeTwd + t.exitCosts.totalFeeTwd), state)
       && t.exitMark.idx == (if before.exitMark.idx != -1 then before.exitMark.idx else bar.rowIndex)
       && PairOf(requests, setup, bar, -held.umcUnits, -held.ccfContracts, bar.umcTwdFair, bar.ccfCloseFilled,
                 t.exitCosts)
  }

  // ---------------------------------------------------------------- what the attempts do

  lemma PairOfRequests(setup: Setup, bar: MarketBar, umcUnits: real, ccfContracts: int, umcPrice: real, ccfPrice: real,
                       costs: Costs)
    ensures PairOf(PairOrderRequests(setup, bar, umcUnits, ccfContracts, umcPrice, ccfPrice, costs), setup, bar,
                   umcUnits, ccfContracts, umcPrice, ccfPrice, costs)
  {
  }

  lemma ExitAttemptExits(setup: Setup, st: RuntimeState, bar: MarketBar, snap: IndicatorSnapshot, reason: ExitReason,
                         text: string)
    requires Usable(setup, bar) && Holding(st)
    ensures var a := ExitAttempt(setup, st, bar, snap, reason, text);
            && a.action == ExitFill && a.state.state == Flat
            && Exited(setup, st, bar, reason, a.state, a.requests, a.trade)
  {
    var held, open := st.position, st.openTrade.value;
    var (umc, ccf) := (ExitUmcPrice(bar, reason), ExitCcfPrice(bar, reason));
    var costs := FillCosts(held.umcUnits, umc, held.ccfContracts, ccf, setup.fees);
    PairOfRequests(setup, bar, -held.umcUnits, -held.ccfContracts, bar.umcTwdFair, bar.ccfCloseFilled, costs);
    GrossIsValue(setup, st, bar, snap, costs, reason);
    hide FillCosts, PairOf, PairOrderRequests, PairValue, UnrealizedPnl;
  }

  lemma GrossIsValue(setup: Setup, st: RuntimeState, bar: MarketBar, snap: IndicatorSnapshot, costs: Costs,
                     reason: ExitReason)
    requires Holding(st)
    ensures var open := st.openTrade.value;
            ClosedTrade(setup, st, open, bar, snap, costs, reason).grossPnlTwd
            == PairValue(setup.fees, st.position, ExitUmcPrice(bar, reason), ExitCcfPrice(bar, reason))
               - PairValue(setup.fees, st.position, open.entryUmc, open.entryCcf)
  {
    var held, open := st.position, st.openTrade.value;
    MulSubtracts(UmcContractTwdPrice(ExitUmcPrice(bar, reason), setup.fees),
                 UmcContractTwdPrice(open.entryUmc, setup.fees), held.umcUnits);
    MulSubtracts(ExitCcfPrice(bar, reason), open.entryCcf, held.ccfUnits);
    hide ExitUmcPrice, ExitCcfPrice;
  }

  lemma EntryAttemptAnswers(setup: Setup, st: RuntimeState, bar: MarketBar, snap: IndicatorSnapshot, delay: int,
                            marked: Report)
    requires Usable(setup, bar) && WellFormed(st) && st.state == EntryPending
    ensures var a := EntryAttempt(setup, st, bar, snap, delay);
            var step := Step(a.state, marked.(action := a.action, requests := a.requests, trade := a.trade));
            if WorthTrading(setup, OpenCcfPrice(bar)) then Entered(setup, st, bar, step) else Cancelled(st, step)
  {
    var (direction, umc, ccf) := (st.candidate.direction.value, OpenUmcPrice(bar), OpenCcfPrice(bar));
    var sizing := SizePositionForDirection(direction, umc, ccf, setup.strategy, setup.fees);
    SizedIsWanted(setup, direction, umc, ccf);
    OpenPrices(bar);
    if sizing.Some? {
      var s := sizing.value;
      var costs := FillCosts(s.umcUnits, umc, s.ccfContracts, ccf, setup.fees);
      PairOfRequests(setup, bar, s.umcUnits, s.ccfContracts, umc, ccf, costs);
    }
    hide FillCosts, PairOf, PairOrderRequests, WantedPair, SizePositionForDirection, UnrealizedPnl, OpenUmcPrice,
         OpenCcfPrice, OpensAt, WorthTrading;
  }

  lemma SizedIsWanted(setup: Setup, direction: Direction, umcPrice: real, ccfPrice: real)
    requires ValidConfig(setup.strategy, setup.fees) && umcPrice > 0.0 && ccfPrice > 0.0
    ensures var r := SizePositionForDirection(direction, umcPrice, ccfPrice, setup.strategy, setup.fees);
            && (r.Some? <==> WorthTrading(setup, ccfPrice))
            && (r.Some? ==>
                  var s := r.value;
                  WantedPair(setup, direction, Position(s.umcUnits, s.ccfUnits, s.ccfContracts, s.actualLegNotionalTwd),
                             umcPrice, ccfPrice))
  {
    SizesWantedLots(direction, umcPrice, ccfPrice, setup.strategy, setup.fees);
    hide SizePositionForDirection, WantedLots;
  }

  // ---------------------------------------------------------------- one bar

  predicate Closed(setup: Setup, before: RuntimeState, bar: MarketBar, reason: ExitReason, step: Step)
    requires Usable(setup, bar)
  {
    && step.state.state == Flat && step.report.action == ExitFill
    && Exited(setup, before, bar, reason, step.state, step.report.requests, step.report.trade)
  }

  /** A pending entry once entries are allowed: filled, too small, or too late, and then the bar may signal afresh. */
  predicate PendingEntryAnswered(setup: Setup, st: RuntimeState, bar: MarketBar, snap: IndicatorSnapshot, step: Step)
    requires Usable(setup, bar)
  {
    if st.candidate.time.Some? && InTime(setup, st.candidate.time.value, bar) then
      if WorthTrading(setup, OpenCcfPrice(bar)) then Entered(setup, st, bar, step) else Cancelled(st, step)
    else if CallsSomeEntry(setup, snap) then
      Pended(st, bar, snap, if CallsEntry(setup, snap, ShortUmcLongCcf) then ShortUmcLongCcf else LongUmcShortCcf, step)
    else Cancelled(st, step)
  }

  /** What a bar makes of each state. */
  predicate Answered(setup: Setup, st: RuntimeState, bar: MarketBar, snap: IndicatorSnapshot, step: Step)
    requires Usable(setup, bar)
  {
    match st.state
    case Flat =>
      if CallsSomeEntry(setup, snap) then
        Pended(st, bar, snap, if CallsEntry(setup, snap, ShortUmcLongCcf) then ShortUmcLongCcf
               else LongUmcShortCcf, step)
      else Idle(st, step)
    case EntryPending => if bar.entryAllowed then PendingEntryAnswered(setup, st, bar, snap, step) else Idle(st, step)
    case Open =>
      if bar.fridayForceClose && snap.closeAllowed then Closed(setup, st, bar, FridaySessionEnd, step)
      else if st.direction.Some? && CallsExit(setup, snap, st.direction.value) then ExitPended(st, bar, snap, step)
      else Idle(st, step)
    case ExitPending => if bar.closeAllowed then Closed(setup, st, bar, ZscoreExit, step) else Idle(st, step)
    case _ => Idle(st, step)
  }

  /** The delay limit counts whole minutes. */
  lemma DelayIsInTime(setup: Setup, since: int, bar: MarketBar)
    ensures MinutesBetween(since, bar.timestamp) <= setup.strategy.maxEntryDelayMinutes <==> InTime(setup, since, bar)
  {
  }

  /** The final mark of a step moves nothing but the running maximum. */
  lemma MarkKeepsAnswers(setup: Setup, st: RuntimeState, bar: MarketBar, a: Attempt, reason: ExitReason)
    requires Usable(setup, bar)
    requires Exited(setup, st, bar, reason, a.state, a.requests, a.trade) && a.state.state == Flat
             && a.action == ExitFill
    ensures Closed(setup, st, bar, reason, Marked(setup, a.state, bar, a.action, a.reason, a.requests, a.trade))
  {
    hide FillCosts, PairOf, PairValue, UnrealizedPnl, OpenUmcPrice, OpenCcfPrice, OpensAt;
  }

  lemma MarkKeepsEntry(setup: Setup, st: RuntimeState, bar: MarketBar, a: Attempt, marked: Report)
    requires Usable(setup, bar)
    ensures var step := Step(a.state, marked.(action := a.action, requests := a.requests, trade := a.trade));
            var after := Marked(setup, a.state, bar, a.action, a.reason, a.requests, a.trade);
            (Entered(setup, st, bar, step) ==> Entered(setup, st, bar, after))
            && (Cancelled(st, step) ==> Cancelled(st, after))
  {
    hide FillCosts, PairOf, WantedPair, UnrealizedPnl, OpenUmcPrice, OpenCcfPrice, OpensAt;
  }

  /** A bar that fills nothing: what it signals, from the state its cancellation left. */
  lemma SignalsAnswer(setup: Setup, st: RuntimeState, bar: MarketBar, snap: IndicatorSnapshot)
    requires Usable(setup, bar) && WellFormed(st)
    requires st.state != EntryPending || !bar.entryAllowed
             || MinutesBetween(st.candidate.time.value, bar.timestamp) > setup.strategy.maxEntryDelayMinutes
    requires st.state != ExitPending || !bar.closeAllowed
    requires !(st.state == Open && bar.fridayForceClose && snap.closeAllowed)
    ensures Answered(setup, st, bar, snap, StrategyModel.OnBar(setup, st, bar, snap))
  {
    hide EntryAttempt, ExitAttempt, UnrealizedPnl, Entered, Exited, FillCosts, OpenCcfPrice;
    if st.state == EntryPending && bar.entryAllowed {
      DelayIsInTime(setup, st.candidate.time.value, bar);
    }
  }

  /**
   One bar from any well-formed state does exactly this: an entry pends on a score beyond the threshold and fills on the
   first bar that allows entries in time, an exit pends on a score that crossed over and fills on the first bar that
   allows closing, a Friday close pre-empts it, and every other bar moves nothing.
   */
  lemma OnBarAnswers(setup: Setup, st: RuntimeState, bar: MarketBar, snap: IndicatorSnapshot)
    requires Usable(setup, bar) && WellFormed(st)
    ensures Answered(setup, st, bar, snap, StrategyModel.OnBar(setup, st, bar, snap))
  {
    if st.state == ExitPending && bar.closeAllowed {
      FillsExit(setup, st, bar, snap, ZscoreExit, "exit_filled");
    } else if st.state == Open && bar.fridayForceClose && snap.closeAllowed {
      FillsExit(setup, st, bar, snap, FridaySessionEnd, "friday_session_end");
    } else if st.state == EntryPending && bar.entryAllowed
              && MinutesBetween(st.candidate.time.value, bar.timestamp) <= setup.strategy.maxEntryDelayMinutes {
      FillsEntry(setup, st, bar, snap);
    } else {
      SignalsAnswer(setup, st, bar, snap);
    }
  }

  lemma FillsExit(setup: Setup, st: RuntimeState, bar: MarketBar, snap: IndicatorSnapshot, reason: ExitReason,
                  text: string)
    requires Usable(setup, bar) && WellFormed(st)
    requires (st.state == ExitPending && bar.closeAllowed && reason == ZscoreExit && text == "exit_filled")
             || (st.state == Open && bar.fridayForceClose && snap.closeAllowed && reason == FridaySessionEnd
                 && text == "friday_session_end")
    ensures Answered(setup, st, bar, snap, StrategyModel.OnBar(setup, st, bar, snap))
  {
    hide EntryAttempt, ExitAttempt, Exited, Marked, FillCosts, OpenCcfPrice, Closed;
    ExitAttemptExits(setup, st, bar, snap, reason, text);
    MarkKeepsAnswers(setup, st, bar, ExitAttempt(setup, st, bar, snap, reason, text), reason);
  }

  lemma FillsEntry(setup: Setup, st: RuntimeState, bar: MarketBar, snap: IndicatorSnapshot)
    requires Usable(setup, bar) && WellFormed(st) && st.state == EntryPending && bar.entryAllowed
    requires MinutesBetween(st.candidate.time.value, bar.timestamp) <= setup.strategy.maxEntryDelayMinutes
    ensures Answered(setup, st, bar, snap, StrategyModel.OnBar(setup, st, bar, snap))
  {
    hide EntryAttempt, ExitAttempt, Entered, Cancelled, Marked, FillCosts, OpenCcfPrice, WorthTrading;
    var step := StrategyModel.OnBar(setup, st, bar, snap);
    DelayIsInTime(setup, st.candidate.time.value, bar);
    var delay := MinutesBetween(st.candidate.time.value, bar.timestamp);
    EntryAttemptAnswers(setup, st, bar, snap, delay, step.report);
    MarkKeepsEntry(setup, st, bar, EntryAttempt(setup, st, bar, snap, delay), step.report);
  }

  // ---------------------------------------------------------------- end of data, forced exits, and the mark

  /** End of data cancels a pending entry, closes what is held at the close, and otherwise does nothing. */
  lemma FinalizeAnswers(setup: Setup, st: RuntimeState, bar: MarketBar, snap: IndicatorSnapshot)
    requires Usable(setup, bar) && WellFormed(st)
    ensures var step := StrategyModel.Finalize(setup, st, bar, snap);
            if st.state == EntryPending then step.Some? && Cancelled(st, step.value)
            else if Holding(st) then
              && step.Some? && step.value.state.state == ForcedClosed && step.value.report.action == ExitFill
              && Exited(setup, st, bar, EndOfData, step.value.state, step.value.report.requests,
                        step.value.report.trade)
            else step.None?
  {
    if st.state != EntryPending && Holding(st) {
      hide ExitAttempt, Marked;
      var a := ExitAttempt(setup, st, bar, snap, EndOfData, "exit_filled");
      ExitAttemptExits(setup, st, bar, snap, EndOfData, "exit_filled");
      ClosedForGood(setup, st, bar, a);
    }
  }

  lemma ClosedForGood(setup: Setup, st: RuntimeState, bar: MarketBar, a: Attempt)
    requires Usable(setup, bar) && a.action == ExitFill
             && Exited(setup, st, bar, EndOfData, a.state, a.requests, a.trade)
    ensures var step := Marked(setup, a.state.(state := ForcedClosed), bar, a.action, a.reason, a.requests, a.trade);
            && step.state.state == ForcedClosed && step.report.action == ExitFill
            && Exited(setup, st, bar, EndOfData, step.state, step.report.requests, step.report.trade)
  {
    hide FillCosts, PairOf, PairValue, UnrealizedPnl, OpenUmcPrice, OpenCcfPrice, OpensAt;
  }

  /** A forced exit closes what is held for its reason, and does nothing when nothing is. */
  lemma ForceExitAnswers(setup: Setup, st: RuntimeState, bar: MarketBar, snap: IndicatorSnapshot, reason: ExitReason)
    requires Usable(setup, bar) && WellFormed(st)
    ensures var step := StrategyModel.ForceExit(setup, st, bar, snap, reason);
            if Holding(st) then step.Some? && Closed(setup, st, bar, reason, step.value) else step.None?
  {
    hide ExitAttempt, Marked, Closed, Exited;
    if Holding(st) {
      ExitAttemptExits(setup, st, bar, snap, reason, "exit_filled");
      MarkKeepsAnswers(setup, st, bar, ExitAttempt(setup, st, bar, snap, reason, "exit_filled"), reason);
    }
  }

  /**
   Equity is the capital, what was realised, and what the pair held gained since it was entered, at the bar's close.
   */
  predicate MarkedAt(setup: Setup, before: RuntimeState, bar: MarketBar, step: Step) {
    var (st, report) := (step.state, step.report);
    && report.unrealizedPnl == (if st.openTrade.None? then 0.0
                                else PairValue(setup.fees, st.position, bar.umcTwdFair, bar.ccfCloseFilled)
                                     - PairValue(setup.fees, st.position, st.openTrade.value.entryUmc,
                                                 st.openTrade.value.entryCcf))
    && report.equity == setup.strategy.initialCapitalTwd + st.realizedPnl + report.unrealizedPnl
    && report.runningMaxEquity == st.runningMaxEquity
       == (if report.equity > before.runningMaxEquity then report.equity else before.runningMaxEquity)
    && report.drawdownTwd == report.equity - report.runningMaxEquity
    && (if report.runningMaxEquity == 0.0 then report.drawdownPct == 0.0
        else report.drawdownPct * report.runningMaxEquity == report.drawdownTwd)
  }

  lemma UnrealizedIsValue(setup: Setup, st: RuntimeState, bar: MarketBar)
    requires WellFormed(st)
    ensures UnrealizedPnl(setup, st, bar)
         == if st.openTrade.None? then 0.0
            else PairValue(setup.fees, st.position, bar.umcTwdFair, bar.ccfCloseFilled)
                 - PairValue(setup.fees, st.position, st.openTrade.value.entryUmc, st.openTrade.value.entryCcf)
  {
    if st.openTrade.Some? {
      var (open, held) := (st.openTrade.value, st.position);
      MulSubtracts(UmcContractTwdPrice(bar.umcTwdFair, setup.fees), UmcContractTwdPrice(open.entryUmc, setup.fees),
                   held.umcUnits);
      MulSubtracts(bar.ccfCloseFilled, open.entryCcf, held.ccfUnits);
    }
  }

  /** An attempt has at most marked its own new state already. */
  predicate MarkedOnce(setup: Setup, before: RuntimeState, st: RuntimeState, bar: MarketBar) {
    || st.runningMaxEquity == before.runningMaxEquity
    || st.runningMaxEquity == Max(before.runningMaxEquity,
                                  setup.strategy.initialCapitalTwd + st.realizedPnl + UnrealizedPnl(setup, st, bar))
  }

  lemma MarkIsRight(setup: Setup, before: RuntimeState, st: RuntimeState, bar: MarketBar, action: Action,
                    reason: string,
                    requests: seq<OrderRequest>, trade: Option<Trade>)
    requires WellFormed(st)
    requires MarkedOnce(setup, before, st, bar)
    ensures MarkedAt(setup, before, bar, Marked(setup, st, bar, action, reason, requests, trade))
  {
    UnrealizedIsValue(setup, st, bar);
    hide UnrealizedPnl, PairValue, WellFormed;
    var step := Marked(setup, st, bar, action, reason, requests, trade);
    if step.report.runningMaxEquity != 0.0 {
      Quotient(step.report.drawdownTwd, step.report.runningMaxEquity);
    }
  }

  lemma Quotient(x: real, y: real)
    requires y != 0.0
    ensures x / y * y == x
  {
  }

  lemma ExitMarksOnce(setup: Setup, st: RuntimeState, bar: MarketBar, snap: IndicatorSnapshot, reason: ExitReason,
                      text: string)
    requires Usable(setup, bar) && Holding(st)
    ensures var a := ExitAttempt(setup, st, bar, snap, reason, text);
            MarkedOnce(setup, st, a.state, bar) && a.action == ExitFill
  {
    hide FillCosts, ClosedTrade, ExitRequests;
  }

  lemma EntryMarksOnce(setup: Setup, st: RuntimeState, bar: MarketBar, snap: IndicatorSnapshot, delay: int)
    requires Usable(setup, bar) && WellFormed(st) && st.state == EntryPending
    ensures MarkedOnce(setup, st, EntryAttempt(setup, st, bar, snap, delay).state, bar)
  {
    hide FillCosts, SizePositionForDirection, EntryRequests;
  }

  /** What a bar decided before its final mark. */
  function Decided(setup: Setup, st: RuntimeState, bar: MarketBar, snap: IndicatorSnapshot): Attempt
    requires Usable(setup, bar) && WellFormed(st)
  {
    var (pending, filled) := PendingOrders(setup, st, bar, snap);
    if filled then pending else Signals(setup, pending, bar, snap)
  }

  lemma DecidedMarksOnce(setup: Setup, st: RuntimeState, bar: MarketBar, snap: IndicatorSnapshot)
    requires Usable(setup, bar) && WellFormed(st)
    ensures MarkedOnce(setup, st, Decided(setup, st, bar, snap).state, bar)
  {
    hide EntryAttempt, ExitAttempt, UnrealizedPnl;
    var (_, filled) := PendingOrders(setup, st, bar, snap);
    if filled && st.state == EntryPending {
      EntryMarksOnce(setup, st, bar, snap, MinutesBetween(st.candidate.time.value, bar.timestamp));
    } else if filled {
      ExitMarksOnce(setup, st, bar, snap, ZscoreExit, "exit_filled");
    } else if st.state == Open {
      ExitMarksOnce(setup, st, bar, snap, FridaySessionEnd, "friday_session_end");
    }
  }

  /** Every bar reports the equity its new state is worth at its close, and the drawdown from the best one so far. */
  lemma OnBarMarks(setup: Setup, st: RuntimeState, bar: MarketBar, snap: IndicatorSnapshot)
    requires Usable(setup, bar) && WellFormed(st)
    ensures MarkedAt(setup, st, bar, StrategyModel.OnBar(setup, st, bar, snap))
  {
    OnBarOk(setup, st, bar, snap);
    DecidedMarksOnce(setup, st, bar, snap);
    hide PendingOrders, Signals, MarkedAt, MarkedOnce, Marked;
    var a := Decided(setup, st, bar, snap);
    assert StrategyModel.OnBar(setup, st, bar, snap)
        == Marked(setup, a.state, bar, a.action, a.reason, a.requests, a.trade);
    SameButMark(setup, a, bar);
    MarkIsRight(setup, st, a.state, bar, a.action, a.reason, a.requests, a.trade);
  }

  lemma SameButMark(setup: Setup, a: Attempt, bar: MarketBar)
    requires WellFormed(Marked(setup, a.state, bar, a.action, a.reason, a.requests, a.trade).state)
    ensures WellFormed(a.state)
  {
    hide UnrealizedPnl;
  }
}
