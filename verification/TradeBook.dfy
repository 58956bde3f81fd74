/** The order table and the recorded equity of a replay, rebuilt from its trade table. */
module TradeBook {
  import opened Models
  import opened Sizing
  import opened StrategyModel
  import opened StrategyLaws
  import opened Strategy
  import opened Store
  import opened ReplayModel
  import opened ReplayLaws

  /** An open trade as its entry bar fixes it: that bar's open prices and time, whole contracts, fees that add up. */
  predicate Entered(env: Env, open: OpenTrade) {
    && 0 <= open.entryIdx < |env.bars|
    && open.entryTime == env.bars[open.entryIdx].timestamp
    && open.entryUmc == OpenUmcPrice(env.bars[open.entryIdx])
    && open.entryCcf == OpenCcfPrice(env.bars[open.entryIdx])
    && open.position.ccfUnits == open.position.ccfContracts as real * env.setup.fees.ccfContractMultiplier
    && FeesAdd(open.costs)
  }

  predicate FeesAdd(costs: Costs) {
    costs.totalFeeTwd == costs.umcFeeTwd + costs.ccfFeeTwd + costs.ccfTaxTwd
  }

  /** What a pair is worth at given prices. */
  function Worth(fees: FeeConfig, position: Position, umcPrice: real, ccfPrice: real): real {
    position.umcUnits * UmcContractTwdPrice(umcPrice, fees) + position.ccfUnits * ccfPrice
  }

  /** A closed trade as its two bars fix it. */
  predicate Exited(env: Env, t: Trade) {
    && Entered(env, t.entry)
    && 0 <= t.exitIdx < |env.bars|
    && t.exitTime == env.bars[t.exitIdx].timestamp
    && t.exitUmc == ExitUmcPrice(env.bars[t.exitIdx], t.exitReason)
    && t.exitCcf == ExitCcfPrice(env.bars[t.exitIdx], t.exitReason)
    && FeesAdd(t.exitCosts)
    && t.netPnlTwd == Worth(env.setup.fees, t.entry.position, t.exitUmc, t.exitCcf)
                      - Worth(env.setup.fees, t.entry.position, t.entry.entryUmc, t.entry.entryCcf)
                      - t.entry.costs.totalFeeTwd - t.exitCosts.totalFeeTwd
  }

  /** The pair of orders an entry sent: the position, at the prices it was booked at. */
  function EntryOrders(env: Env, open: OpenTrade): seq<OrderRequest>
    requires Entered(env, open)
  {
    PairOrderRequests(env.setup, env.bars[open.entryIdx], open.position.umcUnits, open.position.ccfContracts,
                      open.entryUmc, open.entryCcf, open.costs)
  }

  /** The pair of orders an exit sent: the position reversed, at the close of the exit bar. */
  function ExitOrders(env: Env, t: Trade): seq<OrderRequest>
    requires Exited(env, t)
  {
    PairOrderRequests(env.setup, env.bars[t.exitIdx], -t.entry.position.umcUnits, -t.entry.position.ccfContracts,
                      env.bars[t.exitIdx].umcTwdFair, env.bars[t.exitIdx].ccfCloseFilled, t.exitCosts)
  }

  predicate AllExited(env: Env, rows: seq<TradeRow>) {
    forall row :: row in rows ==> row.Closed? && Exited(env, row.trade)
  }

  /** Every order behind a trade table: for each trade, in order, its entry pair and then its exit pair. */
  function OrdersBehind(env: Env, rows: seq<TradeRow>): seq<OrderRequest>
    requires AllExited(env, rows)
  {
    if rows == [] then []
    else
      var t := rows[|rows| - 1].trade;
      OrdersBehind(env, rows[..|rows| - 1]) + (EntryOrders(env, t.entry) + ExitOrders(env, t))
  }

  /** The orders of the trade still open, if one is. */
  function OpenOrders(env: Env, open: Option<OpenTrade>): seq<OrderRequest>
    requires open.Some? ==> Entered(env, open.value)
  {
    if open.Some? then EntryOrders(env, open.value) else []
  }

  // ---------------------------------------------------------------- one step

  /** Nothing traded, one entry from nothing, or the exit of what was open. */
  predicate Follows(env: Env, open: Option<OpenTrade>, step: Step)
    requires open.Some? ==> Entered(env, open.value)
  {
    || (step.report.requests == [] && step.report.trade == None && step.state.openTrade == open)
    || (open.None? && step.report.trade == None && step.state.openTrade.Some?
        && Entered(env, step.state.openTrade.value)
        && step.report.requests == EntryOrders(env, step.state.openTrade.value))
    || (open.Some? && step.state.openTrade.None? && step.report.trade.Some?
        && step.report.trade.value.entry == open.value && Exited(env, step.report.trade.value)
        && step.report.requests == ExitOrders(env, step.report.trade.value))
  }

  predicate Kept(env: Env, st: RuntimeState) {
    WellFormed(st) && (st.openTrade.Some? ==> Entered(env, st.openTrade.value))
  }

  lemma EntryFollows(env: Env, st: RuntimeState, i: nat, snap: IndicatorSnapshot, delay: int, equity: Report)
    requires Runnable(env) && i < |env.bars| && WellFormed(st) && st.state == EntryPending
    ensures var a := EntryAttempt(env.setup, st, env.bars[i], snap, delay);
            Follows(env, None, Step(a.state, equity.(requests := a.requests, trade := a.trade)))
  {
    hide UmcContractTwdPrice, RoundHalfUpNonNegative, PairOrderRequests;
  }

  lemma ClosedTradeExited(env: Env, st: RuntimeState, i: nat, snap: IndicatorSnapshot, costs: Costs,
                          exitReason: ExitReason)
    requires Runnable(env) && i < |env.bars| && Holding(st) && Entered(env, st.openTrade.value) && FeesAdd(costs)
    ensures var t := ClosedTrade(env.setup, st, st.openTrade.value, env.bars[i], snap, costs, exitReason);
            && Exited(env, t) && t.entry == st.openTrade.value && t.exitIdx == i && t.exitCosts == costs
            && t.exitReason == exitReason
  {
    hide UmcContractTwdPrice, ExitUmcPrice, ExitCcfPrice, Entered, FeesAdd, MinutesBetween;
    var held := st.position;
    var (out, into) := (UmcContractTwdPrice(ExitUmcPrice(env.bars[i], exitReason), env.setup.fees),
                        UmcContractTwdPrice(st.openTrade.value.entryUmc, env.setup.fees));
    MulSubtracts(out, into, held.umcUnits);
    MulSubtracts(ExitCcfPrice(env.bars[i], exitReason), st.openTrade.value.entryCcf, held.ccfUnits);
  }

  lemma ExitFollows(env: Env, st: RuntimeState, i: nat, snap: IndicatorSnapshot, exitReason: ExitReason, reason: string,
                    equity: Report)
    requires Runnable(env) && i < |env.bars| && Holding(st) && Kept(env, st)
    ensures var a := ExitAttempt(env.setup, st, env.bars[i], snap, exitReason, reason);
            Follows(env, st.openTrade, Step(a.state, equity.(requests := a.requests, trade := a.trade)))
  {
    hide FillCosts, ClosedTrade, Exited, Entered, PairOrderRequests, UnrealizedPnl;
    var bar := env.bars[i];
    var costs := FillCosts(st.position.umcUnits, ExitUmcPrice(bar, exitReason), st.position.ccfContracts,
                           ExitCcfPrice(bar, exitReason), env.setup.fees);
    ClosedTradeExited(env, st, i, snap, costs, exitReason);
  }

  lemma PassesFollow(env: Env, st: RuntimeState, step: Step)
    requires Kept(env, st) && step.report.requests == [] && step.report.trade == None
             && step.state.openTrade == st.openTrade
    ensures Follows(env, st.openTrade, step)
  {
  }

  /** A state that waits for an entry holds nothing. */
  lemma PendingHoldsNothing(st: RuntimeState)
    requires WellFormed(st) && st.state in {Flat, EntryPending}
    ensures st.openTrade.None?
  {
  }

  /** One bar of a replay trades nothing, enters from nothing, or exits exactly what was open. */
  lemma NextStepFollows(env: Env, st: RuntimeState, i: nat)
    requires Runnable(env) && i < |env.bars| && Kept(env, st)
    ensures Follows(env, st.openTrade, NextStep(env, st, i))
  {
    hide EntryAttempt, ExitAttempt, Follows, SnapAt, UnrealizedPnl, Entered;
    var (bar, snap, step) := (env.bars[i], SnapAt(env, i), NextStep(env, st, i));
    var (pending, filled) := PendingOrders(env.setup, st, bar, snap);
    if filled && st.state == EntryPending {
      PendingHoldsNothing(st);
      EntryFollows(env, st, i, snap, MinutesBetween(st.candidate.time.value, bar.timestamp), step.report);
      SameOrders(env, None, EntryAttempt(env.setup, st, bar, snap,
                                         MinutesBetween(st.candidate.time.value, bar.timestamp)), step);
    } else if filled {
      ExitFollows(env, st, i, snap, ZscoreExit, "exit_filled", step.report);
      SameOrders(env, st.openTrade, ExitAttempt(env.setup, st, bar, snap, ZscoreExit, "exit_filled"), step);
    } else if st.state == Open && bar.fridayForceClose && snap.closeAllowed {
      ExitFollows(env, st, i, snap, FridaySessionEnd, "friday_session_end", step.report);
      assert ExitAttempt(env.setup, st, bar, snap, FridaySessionEnd, "friday_session_end").action == ExitFill by {
        ExitAttemptOk(env.setup, st, bar, snap, FridaySessionEnd, "friday_session_end");
      }
      SameOrders(env, st.openTrade, ExitAttempt(env.setup, st, bar, snap, FridaySessionEnd, "friday_session_end"),
                 step);
    } else {
      PassesFollow(env, st, step);
    }
  }

  /** Following reads only the orders, the trade and what is open afterwards. */
  lemma SameOrders(env: Env, open: Option<OpenTrade>, a: Attempt, step: Step)
    requires open.Some? ==> Entered(env, open.value)
    requires Follows(env, open, Step(a.state, step.report.(requests := a.requests, trade := a.trade)))
    requires step.report.requests == a.requests && step.report.trade == a.trade
             && step.state.openTrade == a.state.openTrade
    ensures Follows(env, open, step)
  {
  }

  /** End of data closes what is open and sends nothing else. */
  lemma ClosingFollows(env: Env, st: RuntimeState)
    requires Runnable(env) && env.bars != [] && Kept(env, st)
    ensures var step := StrategyModel.Finalize(env.setup, st, env.bars[|env.bars| - 1], SnapAt(env, |env.bars| - 1));
            step.Some? ==> Follows(env, st.openTrade, step.value)
  {
    hide EntryAttempt, ExitAttempt, Follows, SnapAt, UnrealizedPnl, Entered;
    var (i, snap) := (|env.bars| - 1, SnapAt(env, |env.bars| - 1));
    var step := StrategyModel.Finalize(env.setup, st, env.bars[i], snap);
    if st.state == EntryPending {
      PassesFollow(env, st, step.value);
    } else if step.Some? {
      ExitFollows(env, st, i, snap, EndOfData, "exit_filled", step.value.report);
      SameOrders(env, st.openTrade, ExitAttempt(env.setup, st, env.bars[i], snap, EndOfData, "exit_filled"),
                 step.value);
    }
  }

  // ---------------------------------------------------------------- the whole run

  /** The orders so far are those of the closed trades and of the one still open, and the money is theirs. */
  predicate Booked(env: Env, st: RuntimeState, log: Log) {
    && Kept(env, st) && AllExited(env, log.trades)
    && log.requests == OrdersBehind(env, log.trades) + OpenOrders(env, st.openTrade)
    && Balanced(st, log.trades)
  }

  lemma OrdersBehindAppends(env: Env, rows: seq<TradeRow>, t: Trade)
    requires AllExited(env, rows) && Exited(env, t)
    ensures AllExited(env, rows + [Closed(t)])
    ensures OrdersBehind(env, rows + [Closed(t)])
         == OrdersBehind(env, rows) + (EntryOrders(env, t.entry) + ExitOrders(env, t))
  {
    hide Exited, EntryOrders, ExitOrders;
    var longer := rows + [Closed(t)];
    assert longer[..|longer| - 1] == rows;
  }

  lemma BookedStep(env: Env, st: RuntimeState, log: Log, step: Step, next: Log)
    requires Booked(env, st, log) && Follows(env, st.openTrade, step)
    requires WellFormed(step.state) && MoneyKept(st, step.state, step.report.trade)
    requires next.requests == log.requests + step.report.requests
             && next.trades == log.trades + TradeRows(step.report)
    ensures Booked(env, step.state, next)
  {
    hide WellFormed, Balanced, MoneyKept, Entered, Exited, EntryOrders, ExitOrders, OrdersBehind, AllExited;
    BalancedStep(st, log.trades, step);
    if step.report.trade.Some? {
      OrdersBehindAppends(env, log.trades, step.report.trade.value);
      assert next.requests == OrdersBehind(env, next.trades) + [];
    } else {
      assert next.trades == log.trades;
    }
  }

  lemma StepOkKeepsMoney(setup: Setup, bar: MarketBar, st: RuntimeState, step: Step)
    requires StepOk(setup, bar, st, step)
    ensures WellFormed(step.state) && MoneyKept(st, step.state, step.report.trade)
  {
  }

  lemma BookedStart(env: Env)
    requires Runnable(env)
    ensures Booked(env, RunTo(env, 0).state, RunTo(env, 0).log)
  {
  }

  lemma {:induction false} RunIsBooked(env: Env, i: nat)
    requires Runnable(env) && i <= |env.bars|
    ensures Booked(env, RunTo(env, i).state, RunTo(env, i).log)
  {
    hide NextStep, RunTo, SnapAt, BarEvent, WriteBar, WellFormed, StepOk, Follows, OrdersBehind, OpenOrders, AllExited,
      Balanced, TradeRows, Entered, MoneyKept;
    if i == 0 {
      BookedStart(env);
    } else {
      RunIsBooked(env, i - 1);
      StoryUnfolds(env, i - 1);
      var st := RunTo(env, i - 1).state;
      NextStepOk(env, st, i - 1);
      StepOkKeepsMoney(env.setup, env.bars[i - 1], st, NextStep(env, st, i - 1));
      NextStepFollows(env, st, i - 1);
      BookedStep(env, st, RunTo(env, i - 1).log, NextStep(env, st, i - 1), RunTo(env, i).log);
    }
  }

  lemma EndIsBooked(env: Env)
    requires Runnable(env) && env.bars != []
    ensures Booked(env, Ending(env).state, Ending(env).log) && Ending(env).state.openTrade.None?
  {
    hide RunTo, SnapAt, BarEvent, WriteBar, WellFormed, StepOk, Follows, OrdersBehind, OpenOrders, AllExited,
      Balanced, TradeRows, Entered, MoneyKept, StrategyModel.Finalize;
    var n := |env.bars|;
    RunIsBooked(env, n);
    EndingUnfolds(env);
    ClosingOk(env);
    ClosingFollows(env, RunTo(env, n).state);
    if Closing(env).Some? {
      StepOkKeepsMoney(env.setup, env.bars[n - 1], RunTo(env, n).state, Closing(env).value);
      BookedStep(env, RunTo(env, n).state, RunTo(env, n).log, Closing(env).value, Ending(env).log);
    }
  }

  /** What the recorded fills ask for, whatever ids they carry. */
  function Asked(fills: seq<Fill>): seq<OrderRequest> {
    seq(|fills|, i requires 0 <= i < |fills| =>
      OrderRequest(fills[i].broker, fills[i].symbol, fills[i].side, fills[i].quantity, fills[i].price,
                   fills[i].timestamp, fills[i].rowIndex, fills[i].feeTwd))
  }

  lemma FillsAskTheOrders(t: Tables)
    requires FillsFollow(t)
    ensures Asked(t.fills) == Requests(t.orders)
  {
  }

  /**
   Order table, fill table and trade table tell one story: in any store a replay can leave, the orders and the fills are
   exactly an entry pair and its reversal for each trade in order, then the entry pair of the trade still open.
   */
  lemma OrdersAreTrades(env: Env, t: Tables, i: nat)
    requires Runnable(env) && i <= |env.bars| && At(env, t, i)
    ensures var open := RunTo(env, i).state.openTrade;
            && AllExited(env, t.trades) && (open.Some? ==> Entered(env, open.value))
            && Requests(t.orders) == Asked(t.fills) == OrdersBehind(env, t.trades) + OpenOrders(env, open)
  {
    hide RunTo, OrdersBehind, OpenOrders, Entered, AllExited, Balanced, Requests, Asked, WellFormed;
    RunIsBooked(env, i);
    FillsAskTheOrders(t);
  }

  // ---------------------------------------------------------------- what the fills are worth

  /** TWD per unit of an order's quantity: an ADR contract at its fair price, or a futures contract. */
  function UnitPrice(fees: FeeConfig, r: OrderRequest): real {
    if r.broker == IbkrUmc then UmcContractTwdPrice(r.price, fees) else r.price * fees.ccfContractMultiplier
  }

  /** The cash account the filled orders leave: what was sold, less what was bought, less the fees. */
  function Cash(fees: FeeConfig, orders: seq<OrderRequest>): real {
    if orders == [] then 0.0
    else
      var r := orders[|orders| - 1];
      Cash(fees, orders[..|orders| - 1]) - r.side.Sign() * r.quantity * UnitPrice(fees, r) - r.feeTwd
  }

  lemma {:induction false} CashConcat(fees: FeeConfig, a: seq<OrderRequest>, b: seq<OrderRequest>)
    ensures Cash(fees, a + b) == Cash(fees, a) + Cash(fees, b)
    decreases |b|
  {
    hide UnitPrice;
    if b == [] {
      assert a + b == a;
    } else {
      assert (a + b)[..|a + b| - 1] == a + b[..|b| - 1];
      CashConcat(fees, a, b[..|b| - 1]);
    }
  }

  /** A pair of orders costs what it adds to the position at the order prices, and its fees. */
  lemma PairCash(setup: Setup, bar: MarketBar, umcUnits: real, ccfContracts: int, umcPrice: real, ccfPrice: real,
                 costs: Costs)
    requires FeesAdd(costs)
    ensures Cash(setup.fees, PairOrderRequests(setup, bar, umcUnits, ccfContracts, umcPrice, ccfPrice, costs))
         == -(umcUnits * UmcContractTwdPrice(umcPrice, setup.fees)
              + ccfContracts as real * setup.fees.ccfContractMultiplier * ccfPrice) - costs.totalFeeTwd
  {
    var orders := PairOrderRequests(setup, bar, umcUnits, ccfContracts, umcPrice, ccfPrice, costs);
    hide UmcContractTwdPrice;
    assert orders[..|orders| - 1] == [orders[0]] && orders[..1][..0] == [];
    assert orders[0].side.Sign() * orders[0].quantity == umcUnits;
    assert orders[1].side.Sign() * orders[1].quantity == ccfContracts as real;
    assert Cash(setup.fees, [orders[0]])
        == -(orders[0].side.Sign() * orders[0].quantity * UnitPrice(setup.fees, orders[0])) - orders[0].feeTwd;
    TimesRearranged(ccfContracts as real, setup.fees.ccfContractMultiplier, ccfPrice);
  }

  lemma TimesRearranged(x: real, y: real, z: real)
    ensures x * (z * y) == x * y * z
  {
  }

  /**
   What a trade is booked above the prices of its exit orders: nothing if it was forced out at the close, else its bar's
   move from open to close on the pair held.
   */
  function Repriced(env: Env, t: Trade): real
    requires Exited(env, t)
  {
    var bar := env.bars[t.exitIdx];
    if t.exitReason.Forced() then 0.0
    else t.entry.position.umcUnits * (OpenUmcPrice(bar) - bar.umcTwdFair) * env.setup.fees.umcContractMultiplier
         + t.entry.position.ccfUnits * (OpenCcfPrice(bar) - bar.ccfCloseFilled)
  }

  function TotalRepriced(env: Env, rows: seq<TradeRow>): real
    requires AllExited(env, rows)
  {
    if rows == [] then 0.0 else TotalRepriced(env, rows[..|rows| - 1]) + Repriced(env, rows[|rows| - 1].trade)
  }

  lemma EntryCash(env: Env, open: OpenTrade)
    requires Entered(env, open)
    ensures Cash(env.setup.fees, EntryOrders(env, open))
         == -Worth(env.setup.fees, open.position, open.entryUmc, open.entryCcf) - open.costs.totalFeeTwd
  {
    hide UmcContractTwdPrice, Cash, PairOrderRequests;
    PairCash(env.setup, env.bars[open.entryIdx], open.position.umcUnits, open.position.ccfContracts, open.entryUmc,
             open.entryCcf, open.costs);
  }

  lemma ExitCash(env: Env, t: Trade)
    requires Exited(env, t)
    ensures var bar := env.bars[t.exitIdx];
            Cash(env.setup.fees, ExitOrders(env, t))
            == Worth(env.setup.fees, t.entry.position, bar.umcTwdFair, bar.ccfCloseFilled) - t.exitCosts.totalFeeTwd
  {
    hide UmcContractTwdPrice, Cash, PairOrderRequests, ExitUmcPrice, ExitCcfPrice, OpenUmcPrice, OpenCcfPrice;
    var (bar, held) := (env.bars[t.exitIdx], t.entry.position);
    PairCash(env.setup, bar, -held.umcUnits, -held.ccfContracts, bar.umcTwdFair, bar.ccfCloseFilled, t.exitCosts);
    TimesNegated(held.umcUnits, UmcContractTwdPrice(bar.umcTwdFair, env.setup.fees));
    TimesNegated(held.ccfContracts as real, env.setup.fees.ccfContractMultiplier);
    TimesNegated(held.ccfUnits, bar.ccfCloseFilled);
  }

  lemma TimesNegated(x: real, y: real)
    ensures (-x) * y == -(x * y)
  {
  }

  /** It is what the position is worth at the booked prices above what it is worth at the order prices. */
  lemma RepricedIsWorth(env: Env, t: Trade)
    requires Exited(env, t)
    ensures var bar := env.bars[t.exitIdx];
            Repriced(env, t)
            == Worth(env.setup.fees, t.entry.position, t.exitUmc, t.exitCcf)
               - Worth(env.setup.fees, t.entry.position, bar.umcTwdFair, bar.ccfCloseFilled)
  {
    var (bar, held) := (env.bars[t.exitIdx], t.entry.position);
    TimesRearranged(held.umcUnits, env.setup.fees.umcContractMultiplier, OpenUmcPrice(bar));
    TimesRearranged(held.umcUnits, env.setup.fees.umcContractMultiplier, bar.umcTwdFair);
  }

  /** The cash of a trade's four orders is its net PnL, less what its exit was booked above its orders. */
  lemma RoundTripCash(env: Env, t: Trade)
    requires Exited(env, t)
    ensures Cash(env.setup.fees, EntryOrders(env, t.entry) + ExitOrders(env, t)) == t.netPnlTwd - Repriced(env, t)
  {
    CashConcat(env.setup.fees, EntryOrders(env, t.entry), ExitOrders(env, t));
    EntryCash(env, t.entry);
    ExitCash(env, t);
    RepricedIsWorth(env, t);
    hide Repriced, Worth, Cash, EntryOrders, ExitOrders, Entered;
  }

  lemma {:induction false} TradesCash(env: Env, rows: seq<TradeRow>)
    requires AllExited(env, rows)
    ensures Cash(env.setup.fees, OrdersBehind(env, rows)) == TotalNet(rows) - TotalRepriced(env, rows)
  {
    hide Entered, EntryOrders, ExitOrders, Repriced, Worth, FeesAdd;
    if rows != [] {
      var (earlier, t) := (rows[..|rows| - 1], rows[|rows| - 1].trade);
      TradesCash(env, earlier);
      RoundTripCash(env, t);
      CashConcat(env.setup.fees, OrdersBehind(env, earlier), EntryOrders(env, t.entry) + ExitOrders(env, t));
    }
  }

  /** What a state is worth marked at a bar, from the cash of its orders. */
  lemma MarkedIsCash(env: Env, st: RuntimeState, log: Log, bar: MarketBar)
    requires Booked(env, st, log)
    ensures st.realizedPnl + UnrealizedPnl(env.setup, st, bar)
         == Cash(env.setup.fees, log.requests) + Worth(env.setup.fees, st.position, bar.umcTwdFair, bar.ccfCloseFilled)
            + TotalRepriced(env, log.trades)
  {
    hide Cash, TotalNet, TotalRepriced, OrdersBehind, Exited, EntryOrders, UmcContractTwdPrice, AllExited;
    TradesCash(env, log.trades);
    CashConcat(env.setup.fees, OrdersBehind(env, log.trades), OpenOrders(env, st.openTrade));
    if st.openTrade.Some? {
      EntryCash(env, st.openTrade.value);
      var (open, held) := (st.openTrade.value, st.position);
      MulSubtracts(UmcContractTwdPrice(bar.umcTwdFair, env.setup.fees),
                   UmcContractTwdPrice(open.entryUmc, env.setup.fees), held.umcUnits);
      MulSubtracts(bar.ccfCloseFilled, open.entryCcf, held.ccfUnits);
    } else {
      NoCash(env.setup.fees);
    }
  }

  lemma NoCash(fees: FeeConfig)
    ensures Cash(fees, []) == 0.0
  {
  }

  /** The equity a step reports is its realised PnL and its mark on top of the initial capital. */
  lemma ReportsEquity(setup: Setup, st: RuntimeState, bar: MarketBar, snap: IndicatorSnapshot)
    requires Usable(setup, bar)
    ensures var step := StrategyModel.OnBar(setup, st, bar, snap);
            step.report.equity
            == setup.strategy.initialCapitalTwd + step.state.realizedPnl + UnrealizedPnl(setup, step.state, bar)
  {
    hide EntryAttempt, ExitAttempt, PendingOrders, Signals, Usable;
  }

  lemma LastRow(env: Env, i: nat)
    requires Runnable(env) && 0 < i <= |env.bars|
    ensures var story := RunTo(env, i);
            && i - 1 in story.log.bars
            && story.log.bars[i - 1].equity
               == env.setup.strategy.initialCapitalTwd + story.state.realizedPnl
                  + UnrealizedPnl(env.setup, story.state, env.bars[i - 1])
  {
    hide RunTo, SnapAt, StrategyModel.OnBar, UnrealizedPnl;
    StoryUnfolds(env, i - 1);
    ReportsEquity(env.setup, RunTo(env, i - 1).state, env.bars[i - 1], SnapAt(env, i - 1));
  }

  /**
   Every recorded equity can be recomputed from the fill table: initial capital, the cash of the fills, the pair held at
   the bar's close, and what closed trades were booked above the prices of their exit fills.
   */
  lemma EquityIsCash(env: Env, t: Tables, i: nat)
    requires Runnable(env) && 0 < i <= |env.bars| && At(env, t, i)
    ensures var bar := env.bars[i - 1];
            && i - 1 in t.bars && AllExited(env, t.trades)
            && t.bars[i - 1].equity
               == env.setup.strategy.initialCapitalTwd + Cash(env.setup.fees, Asked(t.fills))
                  + Worth(env.setup.fees, RunTo(env, i).state.position, bar.umcTwdFair, bar.ccfCloseFilled)
                  + TotalRepriced(env, t.trades)
  {
    hide RunTo, OrdersBehind, Entered, AllExited, Balanced, Requests, Asked, WellFormed, Cash, TotalRepriced,
      UnrealizedPnl, Worth;
    RunIsBooked(env, i);
    FillsAskTheOrders(t);
    LastRow(env, i);
    MarkedIsCash(env, RunTo(env, i).state, RunTo(env, i).log, env.bars[i - 1]);
  }

  /** A finished replay made, trade by trade, the cash of its fills and what its exits were booked above them. */
  lemma ProfitIsCash(env: Env, t: Tables)
    requires Runnable(env) && env.bars != [] && ReplayLaws.Complete(env, t)
    ensures AllExited(env, t.trades) && Asked(t.fills) == OrdersBehind(env, t.trades)
    ensures TotalNet(t.trades) == Cash(env.setup.fees, Asked(t.fills)) + TotalRepriced(env, t.trades)
  {
    hide RunTo, Ending, OrdersBehind, AllExited, Balanced, Requests, Asked, WellFormed, Cash, TotalRepriced;
    EndIsBooked(env);
    FillsAskTheOrders(t);
    assert OrdersBehind(env, t.trades) + [] == OrdersBehind(env, t.trades);
    TradesCash(env, t.trades);
  }
}
