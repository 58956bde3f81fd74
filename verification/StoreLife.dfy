/** A store from its first row on: bars, live minutes and operator commands, in any order. */
module StoreLife {
  import opened Models
  import opened Sizing
  import opened StrategyModel
  import opened StrategyLaws
  import opened StateJson
  import opened Store
  import opened ReplayLaws
  import opened Reconciliation
  import opened RecoveryModel
  import opened RecoveryLaws
  import ReplayModel
  import LiveExecution
  import Coordinator

  // ---------------------------------------------------------------- what can happen

  /** One step of the strategy, on paper or live. */
  datatype Move =
    | PaperBar(bar: MarketBar, snap: IndicatorSnapshot)
    | EndOfRun(bar: MarketBar, snap: IndicatorSnapshot)
    | PaperForceExit(bar: MarketBar, snap: IndicatorSnapshot, exitReason: ExitReason)
    | Live(m: LiveExecution.LiveMinute, held: Coordinator.Account)
  {
    function Bar(): MarketBar {
      if Live? then m.bar else bar
    }
  }

  predicate MoveReady(setup: Setup, st: RuntimeState, move: Move) {
    if move.Live? then LiveExecution.LiveReady(setup, st, move.m) else Usable(setup, move.bar)
  }

  function Moved(setup: Setup, st: RuntimeState, move: Move): Option<Step>
    requires MoveReady(setup, st, move)
  {
    match move
    case PaperBar(bar, snap) => Some(StrategyModel.OnBar(setup, st, bar, snap))
    case EndOfRun(bar, snap) => StrategyModel.Finalize(setup, st, bar, snap)
    case PaperForceExit(bar, snap, exitReason) => StrategyModel.ForceExit(setup, st, bar, snap, exitReason)
    case Live(m, held) => Some(LiveExecution.HandleBar(setup, st, m, held).step)
  }

  /** Anything that happens to a store. The orders, fills and events a step records are whatever they are. */
  datatype Act =
    | Ran(move: Move, orders: seq<OrderResult>, fills: seq<Fill>, events: seq<EventRow>)
    | ContractNoted(contract: ContractFields, row: int, at: int)
    | ContractSwitched(contract: ContractFields, row: int, at: int)
    | PauseFound(row: int, at: int)
    | Recovered(recover: Request)
    | PauseCleared(fetches: seq<Fetch>, at: int)
    | SettledManually(settle: SettleRequest)

  /** The state a process starts from: the saved one, or a fresh one. */
  function Current(site: Site, setup: Setup, t: Tables): RuntimeState {
    if LoadedState(site, t).Some? then LoadedState(site, t).value else FreshState(setup.strategy)
  }

  /** A positive rate and multipliers, and an exit price that is a price. */
  predicate PricesUsable(fees: FeeConfig, p: Prices) {
    && fees.umcContractMultiplier > 0.0 && fees.ccfContractMultiplier > 0.0 && fees.ccfTaxRate >= 0.0
    && p.usdTwd > 0.0 && p.ccfExitPrice >= 0.0
  }

  predicate Possible(site: Site, setup: Setup, t: Tables, act: Act) {
    match act
    case Ran(move, _, _, _) => MoveReady(setup, Current(site, setup, t), move)
    case SettledManually(req) => PricesUsable(site.fees, req.prices)
    case _ => true
  }

  /** Every parked position was a held one. */
  predicate OriginalsHeld(t: Tables) {
    forall p :: p in t.pendings ==> Holding(p.original)
  }

  /** With usable prices every waiting close can be priced: it was held, so its trade is on record. */
  lemma WaitingIsPriceable(site: Site, t: Tables, p: Prices)
    requires OriginalsHeld(t) && PricesUsable(site.fees, p)
    ensures LatestWaiting(t.pendings).Some? ==>
              var original := LatestWaiting(t.pendings).value.original;
              original.openTrade.Some? && Priceable(site.fees, original.openTrade.value, p)
  {
    hide LatestWaiting;
  }

  function Happened(site: Site, setup: Setup, t: Tables, act: Act): Tables
    requires Possible(site, setup, t, act) && OriginalsHeld(t)
  {
    var st := Current(site, setup, t);
    match act
    case Ran(move, orders, fills, events) =>
      var step := Moved(setup, st, move);
      if step.None? then t
      else
        Save(site, t.(trades := t.trades + ReplayModel.TradeRows(step.value.report), orders := t.orders + orders,
                      fills := t.fills + fills, events := t.events + events),
             move.Bar().rowIndex, move.Bar().timestamp, step.value.state)
    case ContractNoted(contract, row, now) => Save(site, t, row, now, st.(contract := contract))
    case ContractSwitched(contract, row, now) =>
      if st.state in {Flat, EntryPending} then Save(site, t, row, now, LiveExecution.Switched(st, contract)) else t
    case PauseFound(row, now) =>
      if HasPosition(st) then Save(site, t, row, now, LiveExecution.PausedIfHolding(st)) else t
    case Recovered(req) => RecoverManualFlat(site, t, req).1
    case PauseCleared(fetches, now) => ClearPause(site, t, fetches, now).1
    case SettledManually(req) =>
      WaitingIsPriceable(site, t, req.prices);
      SettleManualClose(site, t, req).1
  }

  // ---------------------------------------------------------------- what stays true

  function SettledRows(trades: seq<TradeRow>, recovery: string): nat {
    if trades == [] then 0
    else
      var last := trades[|trades| - 1];
      SettledRows(trades[..|trades| - 1], recovery) + if last.Settled? && last.recovery == recovery then 1 else 0
  }

  function SettledCount(pendings: seq<PendingClose>, recovery: string): nat {
    if pendings == [] then 0
    else (if pendings[0].recovery == recovery && !pendings[0].Waiting() then 1 else 0)
         + SettledCount(pendings[1..], recovery)
  }

  /** No recovery was parked twice. */
  predicate ParkedOnce(t: Tables) {
    forall i, j :: 0 <= i < j < |t.pendings| ==> t.pendings[i].recovery != t.pendings[j].recovery
  }

  /** A parked close has a booked trade exactly when it is settled. */
  ghost predicate SettledMatch(t: Tables) {
    forall r: string :: SettledRows(t.trades, r) == SettledCount(t.pendings, r)
  }

  ghost predicate ParkingSound(t: Tables) {
    KeysOwned(t) && ParkedOnce(t) && OriginalsHeld(t) && SettledMatch(t)
  }

  /**
   The state of a sound store is well formed, its money is booked or still open or parked, and a pending PnL has its
   close.
   */
  predicate StateSound(st: RuntimeState, t: Tables) {
    && WellFormed(st) && MoneyBalanced(st, t.pendings, t.trades)
    && (st.pnlStatus == Pending ==> LatestWaiting(t.pendings).Some?)
  }

  ghost predicate SoundStore(site: Site, setup: Setup, t: Tables) {
    && (t.saved.Some? ==> LoadedState(site, t).Some?)
    && StateSound(Current(site, setup, t), t) && ParkingSound(t)
  }

  lemma EmptyStoreSound(site: Site, setup: Setup)
    ensures SoundStore(site, setup, EMPTY)
  {
  }

  // ---------------------------------------------------------------- one act

  lemma StepsKeepPnlStatus(setup: Setup, st: RuntimeState, bar: MarketBar, snap: IndicatorSnapshot,
                           exitReason: ExitReason)
    requires Usable(setup, bar)
    ensures StrategyModel.OnBar(setup, st, bar, snap).state.pnlStatus == st.pnlStatus
    ensures var closing := StrategyModel.Finalize(setup, st, bar, snap);
            closing.Some? ==> closing.value.state.pnlStatus == st.pnlStatus
    ensures var forced := StrategyModel.ForceExit(setup, st, bar, snap, exitReason);
            forced.Some? ==> forced.value.state.pnlStatus == st.pnlStatus
  {
    hide EntryAttempt, ExitAttempt, Usable;
    if st.candidate.time.Some? {
      AttemptsKeepPnlStatus(setup, st, bar, snap, MinutesBetween(st.candidate.time.value, bar.timestamp), ZscoreExit,
                            "exit_filled");
    }
    AttemptsKeepPnlStatus(setup, st, bar, snap, 0, ZscoreExit, "exit_filled");
    AttemptsKeepPnlStatus(setup, st, bar, snap, 0, FridaySessionEnd, "friday_session_end");
    AttemptsKeepPnlStatus(setup, st, bar, snap, 0, EndOfData, "exit_filled");
    AttemptsKeepPnlStatus(setup, st, bar, snap, 0, exitReason, "exit_filled");
  }

  lemma AttemptsKeepPnlStatus(setup: Setup, st: RuntimeState, bar: MarketBar, snap: IndicatorSnapshot, delay: int,
                              exitReason: ExitReason, reason: string)
    requires Usable(setup, bar)
    ensures EntryAttempt(setup, st, bar, snap, delay).state.pnlStatus == st.pnlStatus
    ensures ExitAttempt(setup, st, bar, snap, exitReason, reason).state.pnlStatus == st.pnlStatus
  {
    hide FillCosts, SizePositionForDirection, ClosedTrade, RoundHalfUpNonNegative;
  }

  /** Every move, on paper or on any venues, keeps the state well formed and the money. */
  lemma MoveOk(setup: Setup, st: RuntimeState, move: Move)
    requires MoveReady(setup, st, move) && WellFormed(st)
    ensures var step := Moved(setup, st, move);
            step.Some? ==> && WellFormed(step.value.state) && MoneyKept(st, step.value.state, step.value.report.trade)
                           && step.value.state.pnlStatus == st.pnlStatus
  {
    hide StrategyModel.OnBar, StrategyModel.Finalize, StrategyModel.ForceExit, LiveExecution.HandleBar, Usable,
         WellFormed;
    match move {
      case PaperBar(bar, snap) =>
        OnBarOk(setup, st, bar, snap);
        StepsKeepPnlStatus(setup, st, bar, snap, ZscoreExit);
      case EndOfRun(bar, snap) =>
        FinalizeOk(setup, st, bar, snap);
        StepsKeepPnlStatus(setup, st, bar, snap, ZscoreExit);
      case PaperForceExit(bar, snap, exitReason) =>
        ForceExitOk(setup, st, bar, snap, exitReason);
        StepsKeepPnlStatus(setup, st, bar, snap, exitReason);
      case Live(m, held) =>
        LiveExecution.HandleBarOk(setup, st, m, held);
    }
  }

  lemma StepKeepsStateSound(st: RuntimeState, step: Step, t: Tables, after: Tables)
    requires StateSound(st, t) && WellFormed(step.state) && MoneyKept(st, step.state, step.report.trade)
    requires step.state.pnlStatus == st.pnlStatus
    requires after.pendings == t.pendings && after.trades == t.trades + ReplayModel.TradeRows(step.report)
    ensures StateSound(step.state, after)
  {
    hide WellFormed, ParkedFees, LatestWaiting, MoneyKept, MoneyBalanced, ReplayModel.TradeRows;
    StepBalances(st, step, t.pendings, t.trades);
  }

  lemma StepBalances(st: RuntimeState, step: Step, pendings: seq<PendingClose>, trades: seq<TradeRow>)
    requires MoneyBalanced(st, pendings, trades) && MoneyKept(st, step.state, step.report.trade)
    ensures MoneyBalanced(step.state, pendings, trades + ReplayModel.TradeRows(step.report))
  {
    hide ParkedFees, OpenFee;
    var rows := ReplayModel.TradeRows(step.report);
    if rows == [] {
      assert trades + rows == trades;
    } else {
      assert (trades + rows)[..|trades|] == trades;
    }
  }

  lemma SameParking(t: Tables, after: Tables)
    requires ParkingSound(t) && after.pendings == t.pendings && after.adjustments == t.adjustments
    requires forall r: string :: SettledRows(after.trades, r) == SettledRows(t.trades, r)
    ensures ParkingSound(after)
  {
  }

  lemma StepKeepsParking(report: Report, t: Tables, after: Tables)
    requires ParkingSound(t) && after.pendings == t.pendings && after.adjustments == t.adjustments
    requires after.trades == t.trades + ReplayModel.TradeRows(report)
    ensures ParkingSound(after)
  {
    hide ParkingSound;
    var rows := ReplayModel.TradeRows(report);
    forall r: string
      ensures SettledRows(after.trades, r) == SettledRows(t.trades, r)
    {
      if rows == [] {
        assert t.trades + rows == t.trades;
      } else {
        assert after.trades[..|t.trades|] == t.trades;
      }
    }
    SameParking(t, after);
  }

  lemma RanSound(site: Site, setup: Setup, t: Tables, act: Act)
    requires IsIso(site.codec) && SoundStore(site, setup, t) && Possible(site, setup, t, act) && act.Ran?
    ensures SoundStore(site, setup, Happened(site, setup, t, act))
  {
    hide ToJson, FromJson, Moved, WellFormed, MoneyKept, StateSound, ParkingSound, MoveReady, ReplayModel.TradeRows;
    var st := Current(site, setup, t);
    SoundIsWellFormed(site, setup, t);
    MoveOk(setup, st, act.move);
    var step := Moved(setup, st, act.move);
    if step.Some? {
      var after := Happened(site, setup, t, act);
      SaveLoads(site, t, act.move.Bar().rowIndex, act.move.Bar().timestamp, step.value.state);
      StepKeepsStateSound(st, step.value, t, after);
      StepKeepsParking(step.value.report, t, after);
    }
  }

  lemma SoundIsWellFormed(site: Site, setup: Setup, t: Tables)
    requires SoundStore(site, setup, t)
    ensures WellFormed(Current(site, setup, t)) && OriginalsHeld(t)
  {
  }

  /** Rewriting the state without touching money, position or PnL status. */
  lemma ResaveSound(site: Site, setup: Setup, t: Tables, row: int, now: int, events: seq<EventRow>, next: RuntimeState)
    requires IsIso(site.codec) && SoundStore(site, setup, t) && WellFormed(next)
    requires var st := Current(site, setup, t);
             && next.realizedPnl == st.realizedPnl && next.realizedFeeTwd == st.realizedFeeTwd
             && next.openTrade == st.openTrade && next.pnlStatus == st.pnlStatus
    ensures SoundStore(site, setup, Save(site, t.(events := events), row, now, next))
  {
    hide ToJson, FromJson, WellFormed, ParkedFees, LatestWaiting, TotalNet, TotalFees, ParkingSound;
    SaveLoads(site, t.(events := events), row, now, next);
    SameParking(t, Save(site, t.(events := events), row, now, next));
  }

  // ---------------------------------------------------------------- parking

  lemma {:induction false} SettledCountConcat(a: seq<PendingClose>, b: seq<PendingClose>, recovery: string)
    ensures SettledCount(a + b, recovery) == SettledCount(a, recovery) + SettledCount(b, recovery)
  {
    if a == [] {
      assert a + b == b;
    } else {
      assert (a + b)[1..] == a[1..] + b;
      SettledCountConcat(a[1..], b, recovery);
    }
  }

  lemma ParkKeepsParking(t: Tables, after: Tables, parked: PendingClose)
    requires ParkingSound(t) && KeysOwned(after) && after.trades == t.trades && after.pendings == t.pendings + [parked]
    requires parked.Waiting() && Holding(parked.original)
    requires forall p :: p in t.pendings ==> p.recovery != parked.recovery
    ensures ParkingSound(after)
  {
    hide KeysOwned, Holding, SettledRows;
    forall r: string
      ensures SettledRows(after.trades, r) == SettledCount(after.pendings, r)
    {
      assert SettledRows(t.trades, r) == SettledCount(t.pendings, r);
      SettledCountConcat(t.pendings, [parked], r);
      assert [parked][1..] == [];
    }
    assert forall p :: p in after.pendings ==> p in t.pendings || p == parked;
  }

  /** What an applied recovery starts from and leaves. */
  lemma AppliedFacts(site: Site, t: Tables, req: Request)
    requires IsIso(site.codec) && RecoverManualFlat(site, t, req).0 == Applied
    ensures LoadedState(site, t).Some? && t.saved.Some?
    ensures var (st, after) := (LoadedState(site, t).value, RecoverManualFlat(site, t, req).1);
            && st.state == Paused && st.direction.Some?
            && LoadedState(site, after) == Some(ClearExposure(st).(pnlStatus := Pending))
            && after.trades == t.trades && |after.pendings| == |t.pendings| + 1
            && var parked := after.pendings[|t.pendings|];
               && after.pendings == t.pendings + [parked] && parked.Waiting() && parked.original == st
               && parked.createdAt == req.now && forall p :: p in t.pendings ==> p.recovery != parked.recovery
  {
    AppliedComesFrom(site, t, req);
    AppliedNeeds(site, t, req);
    var st := LoadedState(site, t).value;
    AppliedShape(site, t, st, TradingSymbol(st, site.ccfSymbol), req);
    AppliedHadDirection(site, t, req);
    AppliedIsNew(site, t, st, TradingSymbol(st, site.ccfSymbol), req);
    var after := RecoverManualFlat(site, t, req).1;
    assert after.pendings == after.pendings[..|t.pendings|] + [after.pendings[|t.pendings|]];
  }

  lemma AppliedHadDirection(site: Site, t: Tables, req: Request)
    requires RecoverManualFlat(site, t, req).0 == Applied
    ensures LoadedState(site, t).Some? && LoadedState(site, t).value.direction.Some?
  {
    hide FromJson, LatestWaiting, BrokersFlat, Apply;
    if t.saved.Some? {
      RepairNeverApplies(site, t, req);
    }
  }

  lemma AppliedIsNew(site: Site, t: Tables, st: RuntimeState, ccfSymbol: string, req: Request)
    requires t.saved.Some? && Apply(site, t, st, ccfSymbol, req).0 == Applied
    ensures var after := Apply(site, t, st, ccfSymbol, req).1;
            && |after.pendings| == |t.pendings| + 1 && after.pendings[|t.pendings|].createdAt == req.now
            && forall p :: p in t.pendings ==> p.recovery != after.pendings[|t.pendings|].recovery
  {
    hide Residual, ToJson, InsertAdjustment;
  }

  lemma AppliedSound(site: Site, setup: Setup, t: Tables, req: Request)
    requires IsIso(site.codec) && SoundStore(site, setup, t) && RecoverManualFlat(site, t, req).0 == Applied
    ensures SoundStore(site, setup, RecoverManualFlat(site, t, req).1)
  {
    hide RecoverManualFlat, LoadedState, KeysOwned, SettledMatch, TotalNet, TotalFees;
    AppliedFacts(site, t, req);
    var st, after := LoadedState(site, t).value, RecoverManualFlat(site, t, req).1;
    var parked := after.pendings[|t.pendings|];
    AppliedKeysOwned(site, t, req);
    ParkKeepsParking(t, after, parked);
    ParkedFeesConcat(t.pendings, [parked]);
    assert [parked][1..] == [];
    assert parked in after.pendings;
  }

  lemma AppliedKeysOwned(site: Site, t: Tables, req: Request)
    requires RecoverManualFlat(site, t, req).0 == Applied && KeysOwned(t)
    ensures KeysOwned(RecoverManualFlat(site, t, req).1)
  {
    AppliedComesFrom(site, t, req);
    hide RecoverManualFlat, Apply, LoadedState, KeysOwned;
    var st := LoadedState(site, t).value;
    ApplyRefusedExactlyWhen(site, t, st, TradingSymbol(st, site.ccfSymbol), req);
  }

  // ---------------------------------------------------------------- repairing

  lemma RepairRowOwned(rows: seq<Adjustment>, row: Adjustment, pendings: seq<PendingClose>)
    requires KeysUnique(rows) && Owned(rows, pendings) && exists p :: p in pendings && p.recovery == row.recovery
    requires RepairRow(rows, row, DUST).Written?
    ensures KeysUnique(RepairRow(rows, row, DUST).rows) && Owned(RepairRow(rows, row, DUST).rows, pendings)
  {
    hide UpsertAdjustment, KeysUnique;
    UpsertAccumulates(rows, row, row.broker, row.symbol);
    UpsertFoundAt(rows, row, FirstKeyed(rows, row));
  }

  lemma RepairKeysOwned(site: Site, t: Tables, recovery: string, ccfSymbol: string, req: Request)
    requires t.saved.Some? && KeysOwned(t) && exists p :: p in t.pendings && p.recovery == recovery
    ensures var after := Repair(site, t, recovery, ccfSymbol, req).1;
            && KeysOwned(after) && after.pendings == t.pendings && after.trades == t.trades && after.saved == t.saved
  {
    hide Residual, RepairRow, KeysUnique, UpsertAdjustment;
    var umc := Adjustment(recovery, IbkrUmc, site.umcSymbol, -Residual(site, t, IbkrUmc, ccfSymbol));
    var ccf := Adjustment(recovery, FubonCcf, ccfSymbol, -Residual(site, t, FubonCcf, ccfSymbol));
    var once := RepairRow(t.adjustments, umc, DUST);
    if once.Written? {
      RepairRowOwned(t.adjustments, umc, t.pendings);
      if RepairRow(once.rows, ccf, DUST).Written? {
        RepairRowOwned(once.rows, ccf, t.pendings);
      }
    }
  }

  /** Any recovery that does not park leaves state, trades and parked closes alone, and the keys owned. */
  lemma OtherRecoverySound(site: Site, setup: Setup, t: Tables, req: Request)
    requires SoundStore(site, setup, t) && RecoverManualFlat(site, t, req).0 != Applied
    ensures SoundStore(site, setup, RecoverManualFlat(site, t, req).1)
  {
    hide StateSound, Repair, Apply, BrokersFlat, FromJson, Residual;
    RecoverOtherwise(site, t, req);
    var after := RecoverManualFlat(site, t, req).1;
    if after.adjustments != t.adjustments {
      ApplyRefused(site, t, req);
      var st, recovery := LoadedState(site, t).value, LatestWaiting(t.pendings).value.recovery;
      RepairKeysOwned(site, t, recovery, TradingSymbol(st, site.ccfSymbol), req);
    }
    assert StateSound(Current(site, setup, t), after) by { SameMoney(Current(site, setup, t), t, after); }
    assert KeysOwned(after);
    assert ParkedOnce(after) && OriginalsHeld(after) && SettledMatch(after);
  }

  lemma SameMoney(st: RuntimeState, t: Tables, after: Tables)
    requires StateSound(st, t) && after.pendings == t.pendings && after.trades == t.trades
    ensures StateSound(st, after)
  {
  }

  /** A recovery that changed corrections without parking was a repair of the latest waiting close. */
  lemma ApplyRefused(site: Site, t: Tables, req: Request)
    requires RecoverManualFlat(site, t, req).0 != Applied
             && RecoverManualFlat(site, t, req).1.adjustments != t.adjustments
    ensures t.saved.Some? && LoadedState(site, t).Some? && LatestWaiting(t.pendings).Some?
    ensures RecoverManualFlat(site, t, req)
         == Repair(site, t, LatestWaiting(t.pendings).value.recovery,
                   TradingSymbol(LoadedState(site, t).value, site.ccfSymbol), req)
  {
    hide FromJson, LatestWaiting, BrokersFlat, Residual, Repair;
  }

  // ---------------------------------------------------------------- settling

  lemma {:induction false} SettleKeepsRows(pendings: seq<PendingClose>, recovery: string, at: int)
    ensures var after := SettlePending(pendings, recovery, at);
            && |after| == |pendings|
            && forall i :: 0 <= i < |pendings| ==>
                 && after[i].recovery == pendings[i].recovery && after[i].original == pendings[i].original
                 && (pendings[i].recovery != recovery ==> after[i] == pendings[i])
  {
    if pendings != [] {
      SettleKeepsRows(pendings[1..], recovery, at);
      assert forall i :: 1 <= i < |pendings| ==> pendings[i] == pendings[1..][i - 1];
    }
  }

  lemma {:induction false} SettleCounts(pendings: seq<PendingClose>, recovery: string, at: int, r: string)
    ensures SettledCount(SettlePending(pendings, recovery, at), r)
         == SettledCount(pendings, r) + (if r == recovery then WaitingCount(pendings, recovery) else 0)
  {
    if pendings != [] {
      SettleCounts(pendings[1..], recovery, at, r);
      assert SettlePending(pendings, recovery, at)[1..] == SettlePending(pendings[1..], recovery, at);
    }
  }

  lemma {:induction false} WaitsOnce(pendings: seq<PendingClose>, p: PendingClose)
    requires p in pendings && p.Waiting()
    requires forall i, j :: 0 <= i < j < |pendings| ==> pendings[i].recovery != pendings[j].recovery
    ensures WaitingCount(pendings, p.recovery) == 1
  {
    if pendings[0] == p {
      assert forall q :: q in pendings[1..] ==> q.recovery != p.recovery;
      CountMembers(pendings[1..], p.recovery);
    } else {
      WaitsOnce(pendings[1..], p);
    }
  }

  /** The settlement a request asks for prices the close, and its prices agree. */
  predicate Settleable(site: Site, t: Tables, req: SettleRequest)
    requires OriginalsHeld(t) && PricesUsable(site.fees, req.prices) && LatestWaiting(t.pendings).Some?
  {
    WaitingIsPriceable(site, t, req.prices);
    var settlement := BuildSettlement(site.fees, LatestWaiting(t.pendings).value.original.openTrade.value, req.prices);
    settlement.Some? && settlement.value.pricesAgree
  }

  /**
   When a settlement succeeds: exactly when it is asked for with a reason and something to price from, nothing is
   running, the PnL is pending, nothing is held and the prices agree. The one-row check of the transaction never
   refuses.
   */
  lemma SettlesExactlyWhen(site: Site, setup: Setup, t: Tables, req: SettleRequest)
    requires SoundStore(site, setup, t) && PricesUsable(site.fees, req.prices)
    ensures var (st, verdict) := (Current(site, setup, t), SettleManualClose(site, t, req).0);
            && (verdict == BookedOnce <==>
                  && req.apply && req.reason != "" && !req.running
                     && (req.fromBroker || req.prices.umcExitPriceUsd.Some?)
                  && st.pnlStatus == Pending && !HasPosition(st) && Settleable(site, t, req))
            && verdict != NotPending && verdict != NoOpenTrade
            && (verdict != BookedOnce ==> SettleManualClose(site, t, req).1 == t)
  {
    hide FromJson, ToJson, BuildSettlement, SettlePending, LatestWaiting, WellFormed, MoneyBalanced, KeysOwned,
         SettledMatch;
    if LatestWaiting(t.pendings).Some? {
      WaitingIsPriceable(site, t, req.prices);
      WaitsOnce(t.pendings, LatestWaiting(t.pendings).value);
    }
  }

  lemma BookedKeepsParking(t: Tables, after: Tables, p: PendingClose, at: int)
    requires ParkingSound(t) && p in t.pendings && p.Waiting()
    requires after.adjustments == t.adjustments && after.pendings == SettlePending(t.pendings, p.recovery, at)
    requires |after.trades| == |t.trades| + 1 && after.trades[..|t.trades|] == t.trades
    requires after.trades[|t.trades|].Settled? && after.trades[|t.trades|].recovery == p.recovery
    ensures ParkingSound(after)
  {
    hide SettlePending, SettledCount, Holding, KeysUnique;
    SettleKeepsRows(t.pendings, p.recovery, at);
    WaitsOnce(t.pendings, p);
    forall r: string
      ensures SettledRows(after.trades, r) == SettledCount(after.pendings, r)
    {
      assert SettledRows(t.trades, r) == SettledCount(t.pendings, r);
      SettleCounts(t.pendings, p.recovery, at, r);
    }
    forall i | 0 <= i < |after.adjustments|
      ensures exists q :: q in after.pendings && q.recovery == after.adjustments[i].recovery
    {
      var q :| q in t.pendings && q.recovery == t.adjustments[i].recovery;
      var k :| 0 <= k < |t.pendings| && t.pendings[k] == q;
      assert after.pendings[k] in after.pendings;
    }
  }

  /** What a booked settlement leaves. */
  lemma BookedFacts(site: Site, setup: Setup, t: Tables, req: SettleRequest)
    requires IsIso(site.codec) && SoundStore(site, setup, t) && PricesUsable(site.fees, req.prices)
    requires SettleManualClose(site, t, req).0 == BookedOnce
    ensures t.saved.Some? && LoadedState(site, t).Some? && LatestWaiting(t.pendings).Some?
    ensures var (p, st, after) := (LatestWaiting(t.pendings).value, LoadedState(site, t).value,
                                   SettleManualClose(site, t, req).1);
            && st.pnlStatus == Pending && WellFormed(st)
            && p.original.openTrade.Some? && Priceable(site.fees, p.original.openTrade.value, req.prices)
            && BuildSettlement(site.fees, p.original.openTrade.value, req.prices).Some?
            && SettleManualClose(site, t, req)
               == BookSettlement(site, t, st, p,
                                 BuildSettlement(site.fees, p.original.openTrade.value, req.prices).value, req)
            && after.adjustments == t.adjustments && after.pendings == SettlePending(t.pendings, p.recovery, req.now)
            && |after.trades| == |t.trades| + 1 && after.trades[..|t.trades|] == t.trades
            && after.trades[|t.trades|].Settled? && after.trades[|t.trades|].recovery == p.recovery
  {
    hide FromJson, ToJson, BuildSettlement, SettlePending, LatestWaiting, WaitingCount, WellFormed, MoneyBalanced,
         ParkingSound;
    SoundIsWellFormed(site, setup, t);
    WaitingIsPriceable(site, t, req.prices);
  }

  lemma BookedSound(site: Site, setup: Setup, t: Tables, req: SettleRequest)
    requires IsIso(site.codec) && SoundStore(site, setup, t) && PricesUsable(site.fees, req.prices)
    requires SettleManualClose(site, t, req).0 == BookedOnce
    ensures var after := SettleManualClose(site, t, req).1;
            SoundStore(site, setup, after) && LoadedState(site, after).Some?
              && LoadedState(site, after).value.pnlStatus == Complete
  {
    hide SettleManualClose, BookSettlement, LoadedState, SettlePending, MoneyBalanced, ParkingSound, BuildSettlement,
         WellFormed;
    SoundIsWellFormed(site, setup, t);
    BookedFacts(site, setup, t, req);
    var p, st, after := LatestWaiting(t.pendings).value, LoadedState(site, t).value, SettleManualClose(site, t, req).1;
    BookedKeepsParking(t, after, p, req.now);
    var s := BuildSettlement(site.fees, p.original.openTrade.value, req.prices).value;
    BookingBalances(site, t, st, p, s, req);
    SettledKeepsShape(st, s);
  }

  lemma SettledKeepsShape(st: RuntimeState, s: Settlement)
    requires WellFormed(st)
    ensures WellFormed(SettledState(st, s)) && SettledState(st, s).pnlStatus == Complete
  {
  }

  // ---------------------------------------------------------------- any life

  /** Lifting a pause rewrites only the state. */
  lemma ClearedSound(site: Site, setup: Setup, t: Tables, fetches: seq<Fetch>, now: int)
    requires IsIso(site.codec) && SoundStore(site, setup, t)
    ensures SoundStore(site, setup, ClearPause(site, t, fetches, now).1)
  {
    hide FromJson, ToJson, ClearStatus, StateSound, ParkingSound;
    SoundIsWellFormed(site, setup, t);
    var (verdict, after) := ClearPause(site, t, fetches, now);
    if verdict.Cleared? {
      var st := LoadedState(site, t).value;
      var row := t.saved.value.rowIndex;
      ResaveSound(site, setup, t, row, now, t.events + [EventRow(row, now, "clear_pause", "")],
                  st.(state := verdict.target));
    }
  }

  /** Every act on a sound store leaves a sound store. */
  lemma OneActSound(site: Site, setup: Setup, t: Tables, act: Act)
    requires IsIso(site.codec) && SoundStore(site, setup, t) && Possible(site, setup, t, act)
    ensures OriginalsHeld(t) && SoundStore(site, setup, Happened(site, setup, t, act))
  {
    hide StateSound, ParkingSound, OriginalsHeld, RecoverManualFlat, ClearPause, SettleManualClose, LoadedState, Moved,
         Save;
    SoundIsWellFormed(site, setup, t);
    var st := Current(site, setup, t);
    match act {
      case Ran(_, _, _, _) => RanSound(site, setup, t, act);
      case ContractNoted(contract, row, now) =>
        ResaveSound(site, setup, t, row, now, t.events, st.(contract := contract));
      case ContractSwitched(contract, row, now) =>
        ResaveSound(site, setup, t, row, now, t.events, LiveExecution.Switched(st, contract));
      case PauseFound(row, now) => ResaveSound(site, setup, t, row, now, t.events, LiveExecution.PausedIfHolding(st));
      case Recovered(req) =>
        if RecoverManualFlat(site, t, req).0 == Applied {
          AppliedSound(site, setup, t, req);
        } else {
          OtherRecoverySound(site, setup, t, req);
        }
      case PauseCleared(fetches, now) => ClearedSound(site, setup, t, fetches, now);
      case SettledManually(req) =>
        WaitingIsPriceable(site, t, req.prices);
        if SettleManualClose(site, t, req).0 == BookedOnce {
          BookedSound(site, setup, t, req);
        } else {
          SettlesExactlyWhen(site, setup, t, req);
        }
    }
  }

  ghost predicate AllPossible(site: Site, setup: Setup, t: Tables, acts: seq<Act>)
    decreases |acts|
  {
    acts == [] || (OriginalsHeld(t) && Possible(site, setup, t, acts[0])
                   && AllPossible(site, setup, Happened(site, setup, t, acts[0]), acts[1..]))
  }

  ghost function Life(site: Site, setup: Setup, t: Tables, acts: seq<Act>): Tables
    requires AllPossible(site, setup, t, acts)
    decreases |acts|
  {
    if acts == [] then t else Life(site, setup, Happened(site, setup, t, acts[0]), acts[1..])
  }

  lemma {:induction false} StaysSound(site: Site, setup: Setup, t: Tables, acts: seq<Act>)
    requires IsIso(site.codec) && SoundStore(site, setup, t) && AllPossible(site, setup, t, acts)
    ensures SoundStore(site, setup, Life(site, setup, t, acts))
    decreases |acts|
  {
    hide Possible, Happened, SoundStore, OriginalsHeld;
    if acts != [] {
      OneActSound(site, setup, t, acts[0]);
      StaysSound(site, setup, Happened(site, setup, t, acts[0]), acts[1..]);
    }
  }

  lemma {:induction false} SettledAtMostOnce(pendings: seq<PendingClose>, recovery: string)
    requires forall i, j :: 0 <= i < j < |pendings| ==> pendings[i].recovery != pendings[j].recovery
    ensures SettledCount(pendings, recovery) <= 1
    ensures SettledCount(pendings, recovery) == 1
            <==> exists p :: p in pendings && p.recovery == recovery && !p.Waiting()
    ensures (forall p :: p in pendings ==> p.recovery != recovery) ==> SettledCount(pendings, recovery) == 0
  {
    if pendings != [] {
      var rest := pendings[1..];
      SettledAtMostOnce(rest, recovery);
      assert pendings == [pendings[0]] + rest;
      if pendings[0].recovery == recovery {
        assert forall p :: p in rest ==> p.recovery != recovery;
      }
    }
  }

  /**
   Over any life that starts from an empty store, realised money is exactly the booked trades, less entry fees still
   open or parked; no manual close is booked twice; every correction belongs to a parked close under its own key; and
   ERROR is never reached.
   */
  lemma MoneyConserved(site: Site, setup: Setup, acts: seq<Act>)
    requires IsIso(site.codec) && AllPossible(site, setup, EMPTY, acts)
    ensures var t := Life(site, setup, EMPTY, acts);
            var st := Current(site, setup, t);
            && SoundStore(site, setup, t) && WellFormed(st) && KeysOwned(t) && ParkedOnce(t)
            && st.realizedPnl + OpenFee(st.openTrade) + ParkedFees(t.pendings) == TotalNet(t.trades)
            && st.realizedFeeTwd - OpenFee(st.openTrade) - ParkedFees(t.pendings) == TotalFees(t.trades)
            && forall r: string :: SettledRows(t.trades, r) == SettledCount(t.pendings, r) <= 1
  {
    EmptyStoreSound(site, setup);
    StaysSound(site, setup, EMPTY, acts);
    hide LoadedState, WellFormed, KeysOwned, ParkedFees, TotalNet, TotalFees, Life, AllPossible;
    var t := Life(site, setup, EMPTY, acts);
    forall r: string
      ensures SettledRows(t.trades, r) == SettledCount(t.pendings, r) <= 1
    {
      SettledAtMostOnce(t.pendings, r);
    }
  }

  // ---------------------------------------------------------------- settled for good, or never

  lemma {:induction false} SettledRowsGrow(before: seq<TradeRow>, after: seq<TradeRow>, recovery: string)
    requires before <= after
    ensures SettledRows(before, recovery) <= SettledRows(after, recovery)
    decreases |after|
  {
    if before != after {
      SettledRowsGrow(before, after[..|after| - 1], recovery);
    }
  }

  /** No act takes back a booked trade. */
  lemma OneActOnlyBooks(site: Site, setup: Setup, t: Tables, act: Act)
    requires OriginalsHeld(t) && Possible(site, setup, t, act)
    ensures t.trades <= Happened(site, setup, t, act).trades
  {
    hide ToJson, FromJson, Moved, Apply, Repair, BuildSettlement, LatestWaiting, SettlePending, BrokersFlat,
         ClearStatus, Residual;
    if act.Recovered? && t.saved.Some? {
      ParkingBooksNothing(site, t, act.recover);
    }
  }

  lemma ParkingBooksNothing(site: Site, t: Tables, req: Request)
    requires t.saved.Some?
    ensures RecoverManualFlat(site, t, req).1.trades == t.trades
  {
    hide FromJson, ToJson, LatestWaiting, BrokersFlat, InsertAdjustment, UpsertAdjustment, Residual;
  }

  lemma {:induction false} LifeOnlyBooks(site: Site, setup: Setup, t: Tables, acts: seq<Act>)
    requires AllPossible(site, setup, t, acts)
    ensures t.trades <= Life(site, setup, t, acts).trades
    decreases |acts|
  {
    hide Possible, Happened, OriginalsHeld;
    if acts != [] {
      OneActOnlyBooks(site, setup, t, acts[0]);
      LifeOnlyBooks(site, setup, Happened(site, setup, t, acts[0]), acts[1..]);
    }
  }

  /**
   A settlement books one trade, and its recovery is settled for good: in every later life that recovery has exactly the
   one booked trade and no waiting row.
   */
  lemma SettlesOnce(site: Site, setup: Setup, t: Tables, req: SettleRequest, acts: seq<Act>)
    requires IsIso(site.codec) && SoundStore(site, setup, t) && PricesUsable(site.fees, req.prices)
    requires SettleManualClose(site, t, req).0 == BookedOnce
    requires AllPossible(site, setup, SettleManualClose(site, t, req).1, acts)
    ensures LatestWaiting(t.pendings).Some?
    ensures var after := SettleManualClose(site, t, req).1;
            var recovery := LatestWaiting(t.pendings).value.recovery;
            var end := Life(site, setup, after, acts);
            && SoundStore(site, setup, after) && |after.trades| == |t.trades| + 1
               && after.trades[..|t.trades|] == t.trades
            && SettledRows(end.trades, recovery) == 1
            && forall p :: p in end.pendings && p.recovery == recovery ==> !p.Waiting()
  {
    hide SettleManualClose, BookSettlement, LoadedState, SettlePending, BuildSettlement, StateSound, KeysOwned, Life,
         AllPossible;
    BookedFacts(site, setup, t, req);
    BookedSound(site, setup, t, req);
    var after, recovery := SettleManualClose(site, t, req).1, LatestWaiting(t.pendings).value.recovery;
    StaysSound(site, setup, after, acts);
    LifeOnlyBooks(site, setup, after, acts);
    var end := Life(site, setup, after, acts);
    SettledRowsGrow(after.trades, end.trades, recovery);
    assert SettledRows(end.trades, recovery) == SettledCount(end.pendings, recovery);
    SettledAtMostOnce(end.pendings, recovery);
    SettledMeansAll(end.pendings, recovery);
  }

  lemma SettledMeansAll(pendings: seq<PendingClose>, recovery: string)
    requires forall i, j :: 0 <= i < j < |pendings| ==> pendings[i].recovery != pendings[j].recovery
    requires exists p :: p in pendings && p.recovery == recovery && !p.Waiting()
    ensures forall p :: p in pendings && p.recovery == recovery ==> !p.Waiting()
  {
    var settled :| settled in pendings && settled.recovery == recovery && !settled.Waiting();
    forall p | p in pendings && p.recovery == recovery
      ensures p == settled
    {
      var i :| 0 <= i < |pendings| && pendings[i] == p;
      var j :| 0 <= j < |pendings| && pendings[j] == settled;
      assert !(i < j) && !(j < i);
    }
  }

  /** A waiting close the settlement command cannot reach: the PnL counts as complete, or a newer close is in front. */
  ghost predicate Stranded(site: Site, setup: Setup, t: Tables, q: PendingClose) {
    && q in t.pendings && q.Waiting()
    && (Current(site, setup, t).pnlStatus == Complete
        || (LatestWaiting(t.pendings).Some? && LatestWaiting(t.pendings).value.recovery != q.recovery))
  }

  /** Each recovery is parked later than every one before it. */
  predicate ClockAhead(t: Tables, act: Act) {
    act.Recovered? ==> forall p :: p in t.pendings ==> p.createdAt < act.recover.now
  }

  ghost predicate ClocksAhead(site: Site, setup: Setup, t: Tables, acts: seq<Act>)
    requires AllPossible(site, setup, t, acts)
    decreases |acts|
  {
    acts == [] || (ClockAhead(t, acts[0]) && ClocksAhead(site, setup, Happened(site, setup, t, acts[0]), acts[1..]))
  }

  lemma {:induction false} NewestWaits(pendings: seq<PendingClose>, p: PendingClose)
    requires p.Waiting() && forall q :: q in pendings ==> q.createdAt < p.createdAt
    ensures LatestWaiting(pendings + [p]) == Some(p)
  {
    if pendings == [] {
      assert pendings + [p] == [p] && [p][1..] == [];
    } else {
      assert (pendings + [p])[1..] == pendings[1..] + [p];
      NewestWaits(pendings[1..], p);
    }
  }

  lemma RanKeepsPnlStatus(site: Site, setup: Setup, t: Tables, act: Act)
    requires IsIso(site.codec) && SoundStore(site, setup, t) && Possible(site, setup, t, act)
    requires !act.Recovered? && !act.SettledManually?
    ensures OriginalsHeld(t)
    ensures var after := Happened(site, setup, t, act);
            after.pendings == t.pendings && Current(site, setup, after).pnlStatus == Current(site, setup, t).pnlStatus
  {
    hide ToJson, FromJson, Moved, WellFormed, MoneyKept, MoneyBalanced, KeysOwned, ParkedOnce, SettledMatch,
         ClearStatus, MoveReady;
    hide LatestWaiting, FreshState;
    SoundIsWellFormed(site, setup, t);
    var st := Current(site, setup, t);
    match act {
      case Ran(move, orders, fills, events) =>
        MoveOk(setup, st, move);
        if Moved(setup, st, move).Some? {
          SaveLoads(site, t, move.Bar().rowIndex, move.Bar().timestamp, Moved(setup, st, move).value.state);
        }
      case ContractNoted(contract, row, now) => SaveLoads(site, t, row, now, st.(contract := contract));
      case ContractSwitched(contract, row, now) => SaveLoads(site, t, row, now, LiveExecution.Switched(st, contract));
      case PauseFound(row, now) => SaveLoads(site, t, row, now, LiveExecution.PausedIfHolding(st));
      case PauseCleared(fetches, now) =>
        if LoadedState(site, t).Some? {
          SaveLoads(site, t, t.saved.value.rowIndex, now, st.(state := if HasPosition(st) then Open else Flat));
        }
      case _ =>
    }
  }

  lemma OneActStrands(site: Site, setup: Setup, t: Tables, act: Act, q: PendingClose)
    requires IsIso(site.codec) && SoundStore(site, setup, t) && Possible(site, setup, t, act)
    requires Stranded(site, setup, t, q) && ClockAhead(t, act)
    ensures OriginalsHeld(t) && Stranded(site, setup, Happened(site, setup, t, act), q)
  {
    hide RecoverManualFlat, ClearPause, SettleManualClose, LoadedState, Moved, StateSound, ParkingSound, SettlePending,
         BookSettlement;
    SoundIsWellFormed(site, setup, t);
    match act {
      case Recovered(req) =>
        if RecoverManualFlat(site, t, req).0 == Applied {
          AppliedFacts(site, t, req);
          NewestWaits(t.pendings, RecoverManualFlat(site, t, req).1.pendings[|t.pendings|]);
        } else {
          RecoverOtherwise(site, t, req);
          SameSavedSameState(site, setup, t, RecoverManualFlat(site, t, req).1);
        }
      case SettledManually(req) =>
        WaitingIsPriceable(site, t, req.prices);
        if SettleManualClose(site, t, req).0 == BookedOnce {
          BookedFacts(site, setup, t, req);
          BookedSound(site, setup, t, req);
          var recovery := LatestWaiting(t.pendings).value.recovery;
          SettleKeepsRows(t.pendings, recovery, req.now);
          var i :| 0 <= i < |t.pendings| && t.pendings[i] == q;
          assert SettlePending(t.pendings, recovery, req.now)[i] == q;
        } else {
          SettlesExactlyWhen(site, setup, t, req);
        }
      case _ => RanKeepsPnlStatus(site, setup, t, act);
    }
  }

  lemma SameSavedSameState(site: Site, setup: Setup, t: Tables, after: Tables)
    requires after.saved == t.saved
    ensures Current(site, setup, after) == Current(site, setup, t)
  {
  }

  /** Once stranded, a close is never settled: through any later life it stays waiting and books no trade. */
  lemma {:induction false} StrandedForever(site: Site, setup: Setup, t: Tables, q: PendingClose, acts: seq<Act>)
    requires IsIso(site.codec) && SoundStore(site, setup, t) && Stranded(site, setup, t, q)
    requires AllPossible(site, setup, t, acts) && ClocksAhead(site, setup, t, acts)
    ensures var end := Life(site, setup, t, acts);
            q in end.pendings && q.Waiting() && SettledRows(end.trades, q.recovery) == 0
    decreases |acts|
  {
    hide Happened, StateSound, KeysOwned, OriginalsHeld, Possible, ClockAhead;
    if acts == [] {
      WaitingBooksNothing(t, q);
    } else {
      OneActSound(site, setup, t, acts[0]);
      OneActStrands(site, setup, t, acts[0], q);
      StrandedForever(site, setup, Happened(site, setup, t, acts[0]), q, acts[1..]);
    }
  }

  lemma WaitingBooksNothing(t: Tables, q: PendingClose)
    requires ParkingSound(t) && q in t.pendings && q.Waiting()
    ensures SettledRows(t.trades, q.recovery) == 0
  {
    hide SettledRows, KeysOwned, OriginalsHeld;
    SettledAtMostOnce(t.pendings, q.recovery);
    if SettledCount(t.pendings, q.recovery) == 1 {
      SettledMeansAll(t.pendings, q.recovery);
    }
    assert SettledRows(t.trades, q.recovery) == SettledCount(t.pendings, q.recovery);
  }

  /**
   How a close strands: a second position is parked while the first still waits, and the newer one is settled. From then
   on the older can never be.
   */
  lemma SecondParkingStrands(site: Site, setup: Setup, t: Tables, park: Request, settle: SettleRequest, q: PendingClose,
                             acts: seq<Act>)
    requires IsIso(site.codec) && SoundStore(site, setup, t) && q in t.pendings && q.Waiting()
    requires ClockAhead(t, Recovered(park)) && RecoverManualFlat(site, t, park).0 == Applied
    requires PricesUsable(site.fees, settle.prices) && OriginalsHeld(RecoverManualFlat(site, t, park).1)
    requires SettleManualClose(site, RecoverManualFlat(site, t, park).1, settle).0 == BookedOnce
    requires var both := SettleManualClose(site, RecoverManualFlat(site, t, park).1, settle).1;
             AllPossible(site, setup, both, acts) && ClocksAhead(site, setup, both, acts)
    ensures var both := SettleManualClose(site, RecoverManualFlat(site, t, park).1, settle).1;
            var end := Life(site, setup, both, acts);
            && Current(site, setup, both).pnlStatus == Complete
            && q in end.pendings && q.Waiting() && SettledRows(end.trades, q.recovery) == 0
  {
    hide RecoverManualFlat, SettleManualClose, LoadedState, SoundStore, OriginalsHeld, Life, AllPossible, ClocksAhead,
         Stranded;
    hide ClockAhead;
    var parked := RecoverManualFlat(site, t, park).1;
    AppliedSound(site, setup, t, park);
    ParkingStrands(site, setup, t, park, q);
    WaitingIsPriceable(site, parked, settle.prices);
    SettlingStrands(site, setup, parked, settle, q);
    StrandedForever(site, setup, SettleManualClose(site, parked, settle).1, q, acts);
  }

  lemma ParkingStrands(site: Site, setup: Setup, t: Tables, park: Request, q: PendingClose)
    requires IsIso(site.codec) && q in t.pendings && q.Waiting()
    requires ClockAhead(t, Recovered(park)) && RecoverManualFlat(site, t, park).0 == Applied
    ensures Stranded(site, setup, RecoverManualFlat(site, t, park).1, q)
  {
    hide RecoverManualFlat, LoadedState, Current;
    AppliedFacts(site, t, park);
    NewestWaits(t.pendings, RecoverManualFlat(site, t, park).1.pendings[|t.pendings|]);
  }

  lemma SettlingStrands(site: Site, setup: Setup, t: Tables, settle: SettleRequest, q: PendingClose)
    requires IsIso(site.codec) && SoundStore(site, setup, t) && Stranded(site, setup, t, q)
    requires OriginalsHeld(t) && PricesUsable(site.fees, settle.prices)
             && SettleManualClose(site, t, settle).0 == BookedOnce
    ensures var after := SettleManualClose(site, t, settle).1;
            && SoundStore(site, setup, after) && Stranded(site, setup, after, q)
            && Current(site, setup, after).pnlStatus == Complete
  {
    hide SettleManualClose, LoadedState, SoundStore, Stranded, OriginalsHeld;
    BookedSound(site, setup, t, settle);
    OneActStrands(site, setup, t, SettledManually(settle), q);
  }

  /**
   The command lifts a pause of the store as the live book lifts it, and a book that is not paused has none to lift.
   */
  lemma ClearPauseLifts(site: Site, t: Tables, fetches: seq<Fetch>, now: int)
    requires IsIso(site.codec) && LoadedState(site, t).Some?
    ensures var (verdict, after) := ClearPause(site, t, fetches, now);
            var st := LoadedState(site, t).value;
            && (verdict.Cleared? ==> LoadedState(site, after) == Some(LiveExecution.Lifted(st)))
            && (LiveExecution.Lifted(st) != st <==> st.state == Paused)
  {
    ClearPauseExactlyWhen(site, t, fetches, now);
    hide ClearPause, LoadedState;
  }
}
