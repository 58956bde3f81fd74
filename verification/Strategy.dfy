/** The strategy object, updating its state field in place and placing its orders with the paper broker. */
module Strategy {
  import opened Models
  import opened Sizing
  import opened StrategyModel

  /** The order and fill a request becomes under given counters: exact quantity, exact price, paired ids. */
  function PlacedOrder(request: OrderRequest, orderSerial: nat): OrderResult {
    OrderResult(Paper(request.rowIndex, orderSerial), request)
  }

  function PlacedFill(request: OrderRequest, orderSerial: nat, fillSerial: nat): Fill {
    Fill(Paper(request.rowIndex, fillSerial), Paper(request.rowIndex, orderSerial), request.broker, request.symbol,
         request.side, request.quantity, request.price, request.feeTwd, request.timestamp, request.rowIndex)
  }

  function OrdersFor(requests: seq<OrderRequest>, orderSerial: nat): seq<OrderResult> {
    seq(|requests|, i requires 0 <= i < |requests| => PlacedOrder(requests[i], orderSerial + i))
  }

  function FillsFor(requests: seq<OrderRequest>, orderSerial: nat, fillSerial: nat): seq<Fill> {
    seq(|requests|, i requires 0 <= i < |requests| => PlacedFill(requests[i], orderSerial + i, fillSerial + i))
  }

  class PaperBroker {
    var orderCounter: nat
    var fillCounter: nat

    constructor ()
      ensures orderCounter == 1 && fillCounter == 1
    {
      orderCounter, fillCounter := 1, 1;
    }

    method PlaceOrder(request: OrderRequest) returns (order: OrderResult, fill: Fill)
      modifies this
      ensures order == PlacedOrder(request, old(orderCounter))
      ensures fill == PlacedFill(request, old(orderCounter), old(fillCounter))
      ensures orderCounter == old(orderCounter) + 1 && fillCounter == old(fillCounter) + 1
    {
      var orderId := Paper(request.rowIndex, orderCounter);
      var fillId := Paper(request.rowIndex, fillCounter);
      orderCounter, fillCounter := orderCounter + 1, fillCounter + 1;
      order := OrderResult(orderId, request);
      fill := Fill(fillId, orderId, request.broker, request.symbol, request.side, request.quantity, request.price,
                   request.feeTwd, request.timestamp, request.rowIndex);
    }
  }

  datatype BarResult = BarResult(report: Report, orders: seq<OrderResult>, fills: seq<Fill>)

  class PairStrategy {
    const setup: Setup
    const broker: PaperBroker
    var state: RuntimeState

    constructor (setup: Setup, broker: PaperBroker, state: RuntimeState)
      ensures this.setup == setup && this.broker == broker && this.state == state
    {
      this.setup, this.broker, this.state := setup, broker, state;
    }

    /** The orders and fills of a result are the broker's answers to the requests its report names. */
    twostate predicate Placed(result: BarResult)
      reads broker
    {
      var n := |result.report.requests|;
      && result.orders == OrdersFor(result.report.requests, old(broker.orderCounter))
      && result.fills == FillsFor(result.report.requests, old(broker.orderCounter), old(broker.fillCounter))
      && broker.orderCounter == old(broker.orderCounter) + n && broker.fillCounter == old(broker.fillCounter) + n
    }

    method OnBar(bar: MarketBar, snap: IndicatorSnapshot) returns (result: BarResult)
      requires Usable(setup, bar)
      modifies this, broker
      ensures Step(state, result.report) == StrategyModel.OnBar(setup, old(state), bar, snap)
      ensures Placed(result)
    {
      var a := Attempt(state, NoAction, "no_action", [], None);
      var orders, fills := [], [];
      var filledThisBar := false;
      if state.state == EntryPending && bar.entryAllowed {
        if state.candidate.time.None? {
          state := state.(state := Error);
          result := MarkResult(ErrorAction, "entry_pending_without_candidate_time", bar, [], [], [], None);
          return;
        }
        var delay := MinutesBetween(state.candidate.time.value, bar.timestamp);
        if delay <= setup.strategy.maxEntryDelayMinutes {
          a, orders, fills := FillEntry(bar, snap, delay);
          filledThisBar := true;
        } else {
          state := state.(candidate := NO_CANDIDATE, state := Flat);
          a := Attempt(state, EntryCancel, "entry_delay_exceeded", [], None);
        }
      }
      if !filledThisBar && state.state == ExitPending && bar.closeAllowed {
        a, orders, fills := FillExit(bar, snap, ZscoreExit, "exit_filled");
        filledThisBar := true;
      }
      if !filledThisBar {
        a, orders, fills := RaiseSignals(a, bar, snap);
      }
      result := MarkResult(a.action, a.reason, bar, a.requests, orders, fills, a.trade);
    }

    /** The signal half of a bar, run when no pending order filled. */
    method RaiseSignals(pending: Attempt, bar: MarketBar, snap: IndicatorSnapshot)
      returns (a: Attempt, orders: seq<OrderResult>, fills: seq<Fill>)
      requires Usable(setup, bar) && pending.state == state && pending.requests == []
      modifies this, broker
      ensures a == Signals(setup, pending, bar, snap) && state == a.state
      ensures orders == OrdersFor(a.requests, old(broker.orderCounter))
      ensures fills == FillsFor(a.requests, old(broker.orderCounter), old(broker.fillCounter))
      ensures broker.orderCounter == old(broker.orderCounter) + |a.requests|
      ensures broker.fillCounter == old(broker.fillCounter) + |a.requests|
    {
      a, orders, fills := pending, [], [];
      if state.state == Flat && snap.entryAllowed {
        if snap.zscoreValid && snap.zscore.Some? {
          var direction := EntryDirection(snap.zscore.value, setup.strategy.entryZ);
          if direction.Some? {
            state := state.(state := EntryPending,
                            candidate := Candidate(direction, bar.rowIndex, Some(bar.timestamp), snap.zscore));
            a := a.(state := state, action := EntrySignal, reason := "entry_zscore_crossed");
          }
        }
      } else if state.state == Open && state.direction.Some? {
        var direction := state.direction.value;
        if bar.fridayForceClose && snap.closeAllowed {
          a, orders, fills := FillExit(bar, snap, FridaySessionEnd, "friday_session_end");
        }
        if a.action == NoAction && snap.closeAllowed && snap.zscoreValid && snap.zscore.Some?
           && ShouldExit(snap.zscore.value, direction, setup.strategy.exitZ) {
          state := state.(state := ExitPending, exitMark := ExitMark(bar.rowIndex, Some(bar.timestamp), snap.zscore));
          a := a.(state := state, action := ExitSignal, reason := "exit_zscore_crossed");
        }
      }
    }

    method Finalize(bar: MarketBar, snap: IndicatorSnapshot) returns (result: Option<BarResult>)
      requires Usable(setup, bar)
      modifies this, broker
      ensures var step := StrategyModel.Finalize(setup, old(state), bar, snap);
              if step.None? then result.None? && state == old(state) && broker.orderCounter == old(broker.orderCounter)
                                 && broker.fillCounter == old(broker.fillCounter)
              else result.Some? && Step(state, result.value.report) == step.value && Placed(result.value)
    {
      if state.state == EntryPending {
        state := state.(candidate := NO_CANDIDATE, state := Flat);
        var cancelled := MarkResult(EntryCancel, "end_of_data_before_entry_fill", bar, [], [], [], None);
        return Some(cancelled);
      }
      if state.direction.None? || state.openTrade.None? {
        return None;
      }
      var a, orders, fills := FillExit(bar, snap, EndOfData, "exit_filled");
      state := state.(state := ForcedClosed);
      var closed := MarkResult(a.action, a.reason, bar, a.requests, orders, fills, a.trade);
      return Some(closed);
    }

    method ForceExit(bar: MarketBar, snap: IndicatorSnapshot, exitReason: ExitReason)
      returns (result: Option<BarResult>)
      requires Usable(setup, bar)
      modifies this, broker
      ensures var step := StrategyModel.ForceExit(setup, old(state), bar, snap, exitReason);
              if step.None? then result.None? && state == old(state) && broker.orderCounter == old(broker.orderCounter)
                                 && broker.fillCounter == old(broker.fillCounter)
              else result.Some? && Step(state, result.value.report) == step.value && Placed(result.value)
    {
      if state.direction.None? || state.openTrade.None? {
        return None;
      }
      var a, orders, fills := FillExit(bar, snap, exitReason, "exit_filled");
      var closed := MarkResult(a.action, a.reason, bar, a.requests, orders, fills, a.trade);
      return Some(closed);
    }

    method FillEntry(bar: MarketBar, snap: IndicatorSnapshot, delay: int)
      returns (a: Attempt, orders: seq<OrderResult>, fills: seq<Fill>)
      requires Usable(setup, bar)
      modifies this, broker
      ensures a == EntryAttempt(setup, old(state), bar, snap, delay) && state == a.state
      ensures orders == OrdersFor(a.requests, old(broker.orderCounter))
      ensures fills == FillsFor(a.requests, old(broker.orderCounter), old(broker.fillCounter))
      ensures broker.orderCounter == old(broker.orderCounter) + |a.requests|
      ensures broker.fillCounter == old(broker.fillCounter) + |a.requests|
    {
      orders, fills := [], [];
      if state.candidate.direction.None? {
        state := state.(state := Error);
        a := Attempt(state, ErrorAction, "entry_pending_without_direction", [], None);
        return;
      }
      var sizing := SizePositionForDirection(state.candidate.direction.value, OpenUmcPrice(bar), OpenCcfPrice(bar),
                                             setup.strategy, setup.fees);
      if sizing.None? {
        state := state.(candidate := NO_CANDIDATE, state := Flat);
        a := Attempt(state, EntryCancel, "ccf_contracts_rounded_to_zero", [], None);
        return;
      }
      var costs := FillCosts(sizing.value.umcUnits, OpenUmcPrice(bar), sizing.value.ccfContracts, OpenCcfPrice(bar),
                             setup.fees);
      var requests := EntryRequests(setup, bar, sizing.value, costs);
      orders, fills := SubmitOrderRequests(requests);
      var report := ApplyEntryExecution(bar, snap, sizing.value, costs, requests, orders, fills, delay, "entry_filled");
      a := Attempt(state, report.action, report.reason, report.requests, report.trade);
    }

    method FillExit(bar: MarketBar, snap: IndicatorSnapshot, exitReason: ExitReason, reason: string)
      returns (a: Attempt, orders: seq<OrderResult>, fills: seq<Fill>)
      requires Usable(setup, bar)
      modifies this, broker
      ensures a == ExitAttempt(setup, old(state), bar, snap, exitReason, reason) && state == a.state
      ensures orders == OrdersFor(a.requests, old(broker.orderCounter))
      ensures fills == FillsFor(a.requests, old(broker.orderCounter), old(broker.fillCounter))
      ensures broker.orderCounter == old(broker.orderCounter) + |a.requests|
      ensures broker.fillCounter == old(broker.fillCounter) + |a.requests|
    {
      orders, fills := [], [];
      if state.openTrade.None? || state.direction.None? {
        state := state.(state := Error);
        a := Attempt(state, ErrorAction, "exit_without_open_trade", [], None);
        return;
      }
      var costs := FillCosts(state.position.umcUnits, ExitUmcPrice(bar, exitReason), state.position.ccfContracts,
                             ExitCcfPrice(bar, exitReason), setup.fees);
      var requests := ExitRequests(setup, bar, state.position, costs);
      orders, fills := SubmitOrderRequests(requests);
      var report := ApplyExitExecution(bar, snap, costs, requests, orders, fills, exitReason, reason);
      a := Attempt(state, report.action, report.reason, report.requests, report.trade);
    }

    method ApplyEntryExecution(bar: MarketBar, snap: IndicatorSnapshot, sizing: PositionSizing, costs: Costs,
                               requests: seq<OrderRequest>, orders: seq<OrderResult>, fills: seq<Fill>, delay: int,
                               reason: string)
      returns (report: Report)
      modifies this
      ensures Step(state, report) == EntryExecuted(setup, old(state), bar, snap, sizing, costs, requests, delay, reason)
    {
      if state.candidate.direction.None? {
        state := state.(state := Error);
        var failed := MarkResult(ErrorAction, "entry_pending_without_direction", bar, [], [], [], None);
        return failed.report;
      }
      state := state.(direction := state.candidate.direction,
                      entry := EntryMark(Some(OpenUmcPrice(bar)), Some(OpenCcfPrice(bar)), snap.zscore),
                      position := Position(sizing.umcUnits, sizing.ccfUnits, sizing.ccfContracts,
                                           sizing.actualLegNotionalTwd));
      state := state.(realizedPnl := state.realizedPnl - costs.totalFeeTwd,
                      realizedFeeTwd := state.realizedFeeTwd + costs.totalFeeTwd);
      state := state.(openTrade := Some(OpenTrade(
                        state.candidate.idx, state.candidate.time, state.candidate.zscore, bar.rowIndex, bar.timestamp,
                        delay,
                        snap.zscore, state.direction.value, OpenUmcPrice(bar), OpenCcfPrice(bar), state.position,
                        sizing.rawCcfContracts, costs, bar.ccfSymbol)));
      state := state.(candidate := NO_CANDIDATE, state := Open);
      var result := MarkResult(EntryFill, reason, bar, requests, orders, fills, None);
      report := result.report;
    }

    method ApplyExitExecution(bar: MarketBar, snap: IndicatorSnapshot, costs: Costs, requests: seq<OrderRequest>,
                              orders: seq<OrderResult>, fills: seq<Fill>, exitReason: ExitReason, reason: string)
      returns (report: Report)
      modifies this
      ensures Step(state, report) == ExitExecuted(setup, old(state), bar, snap, costs, requests, exitReason, reason)
    {
      if state.openTrade.None? || state.direction.None? {
        state := state.(state := Error);
        var failed := MarkResult(ErrorAction, "exit_without_open_trade", bar, [], [], [], None);
        return failed.report;
      }
      var trade := ClosedTrade(setup, state, state.openTrade.value, bar, snap, costs, exitReason);
      state := state.(realizedPnl := state.realizedPnl + trade.grossPnlTwd - costs.totalFeeTwd,
                      realizedFeeTwd := state.realizedFeeTwd + costs.totalFeeTwd);
      state := state.(state := Flat, direction := None, openTrade := None, position := NO_POSITION);
      state := state.(entry := NO_ENTRY, exitMark := NO_EXIT_MARK);
      var result := MarkResult(ExitFill, reason, bar, requests, orders, fills, Some(trade));
      report := result.report;
    }

    method SubmitOrderRequests(requests: seq<OrderRequest>) returns (orders: seq<OrderResult>, fills: seq<Fill>)
      modifies broker
      ensures orders == OrdersFor(requests, old(broker.orderCounter))
      ensures fills == FillsFor(requests, old(broker.orderCounter), old(broker.fillCounter))
      ensures broker.orderCounter == old(broker.orderCounter) + |requests|
      ensures broker.fillCounter == old(broker.fillCounter) + |requests|
    {
      orders, fills := [], [];
      for i := 0 to |requests|
        invariant broker.orderCounter == old(broker.orderCounter) + i
                  && broker.fillCounter == old(broker.fillCounter) + i
        invariant orders == OrdersFor(requests[..i], old(broker.orderCounter))
        invariant fills == FillsFor(requests[..i], old(broker.orderCounter), old(broker.fillCounter))
      {
        var order, fill := broker.PlaceOrder(requests[i]);
        orders, fills := orders + [order], fills + [fill];
      }
      assert requests[..|requests|] == requests;
    }

    method MarkResult(action: Action, reason: string, bar: MarketBar, requests: seq<OrderRequest>,
                      orders: seq<OrderResult>, fills: seq<Fill>, trade: Option<Trade>) returns (result: BarResult)
      modifies this
      ensures Step(state, result.report) == Marked(setup, old(state), bar, action, reason, requests, trade)
      ensures result.orders == orders && result.fills == fills
    {
      var unrealized := 0.0;
      if state.direction.Some? && state.entry.umc.Some? && state.entry.ccf.Some? {
        unrealized := state.position.umcUnits
          * (UmcContractTwdPrice(bar.umcTwdFair, setup.fees) - UmcContractTwdPrice(state.entry.umc.value, setup.fees))
          + state.position.ccfUnits * (bar.ccfCloseFilled - state.entry.ccf.value);
      }
      var equity := setup.strategy.initialCapitalTwd + state.realizedPnl + unrealized;
      state := state.(runningMaxEquity := Max(state.runningMaxEquity, equity));
      var drawdown := equity - state.runningMaxEquity;
      var pct := if state.runningMaxEquity != 0.0 then drawdown / state.runningMaxEquity else 0.0;
      result :=
        BarResult(Report(action, reason, requests, trade, unrealized, equity, state.runningMaxEquity, drawdown, pct),
                          orders, fills);
    }
  }
}
