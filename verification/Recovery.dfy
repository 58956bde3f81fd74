/** The recovery commands as they run: reading and writing the store inside one transaction. */
module Recovery {
  import opened Models
  import opened Sizing
  import opened StrategyModel
  import opened StateJson
  import opened Store
  import opened Reconciliation
  import opened RecoveryModel

  class RecoveryCommands {
    const site: Site

    constructor (site: Site)
      ensures this.site == site
    {
      this.site := site;
    }

    method LoadResumeState(store: SQLiteStore) returns (state: Option<RuntimeState>)
      ensures state == LoadedState(site, store.Contents())
    {
      state := if store.saved.Some? then FromJson(site.codec, store.saved.value.payload) else None;
    }

    /** Records an externally closed pair without inventing prices, or re-squares the ledger of one recorded before. */
    method RecoverManualFlat(store: SQLiteStore, req: Request) returns (verdict: RecoverVerdict)
      requires store.codec == site.codec
      modifies store
      ensures (verdict, store.Contents()) == RecoveryModel.RecoverManualFlat(site, old(store.Contents()), req)
    {
      hide FromJson, ToJson, RecordedExposure, AllIssues, InsertAdjustment, RepairRow;
      if req.apply && req.reason == "" {
        return ReasonRequired;
      }
      if req.running {
        return RunStillRunning;
      }
      var loaded := LoadResumeState(store);
      if loaded.None? {
        return NoState;
      }
      var st := loaded.value;
      var pending := store.LoadPendingManualClose();
      var already := pending.Some? && !HasPosition(st);
      if !already {
        if st.state != Paused {
          return NotPaused;
        }
        if !HasPosition(st) {
          return NoPosition;
        }
        if st.direction.None? {
          return DirectionMissing;
        }
      }
      var ccfSymbol := TradingSymbol(st, site.ccfSymbol);
      var reconciler := new BrokerReconciler(site.tol);
      var report := reconciler.Reconcile(Some(ClearExposure(st)), req.fetches, site.umcSymbol, ccfSymbol);
      if report.status != Matched {
        return NotFlat;
      }
      var umc, ccf := store.LoadRecordedFillExposure(site.umcSymbol, ccfSymbol);
      if already && Abs(umc) <= DUST && Abs(ccf) <= DUST {
        return AlreadySquare;
      }
      if !req.apply {
        return DryRun;
      }
      if already {
        verdict := RepairLedger(store, pending.value.recovery, ccfSymbol, umc, ccf, req);
      } else {
        verdict := ParkPosition(store, st, ccfSymbol, umc, ccf, req);
      }
    }

    method RepairLedger(store: SQLiteStore, recovery: string, ccfSymbol: string, umc: real, ccf: real, req: Request)
      returns (verdict: RecoverVerdict)
      requires store.saved.Some?
      requires umc == Residual(site, store.Contents(), IbkrUmc, ccfSymbol)
               && ccf == Residual(site, store.Contents(), FubonCcf, ccfSymbol)
      modifies store
      ensures (verdict, store.Contents()) == Repair(site, old(store.Contents()), recovery, ccfSymbol, req)
    {
      hide RecordedExposure, RepairRow;
      var committed := store.Contents();
      var rows := [Adjustment(recovery, IbkrUmc, site.umcSymbol, -umc),
                   Adjustment(recovery, FubonCcf, ccfSymbol, -ccf)];
      TwoRepairs(store.adjustments, rows[0], rows[1]);
      var ok := store.RecordManualFlatLedgerRepair(rows, DUST);
      if !ok {
        store.Rollback(committed);
        return KeyConflict;
      }
      store.RecordEvent(EventRow(store.saved.value.rowIndex, req.now, "manual_flat_ledger_repair", req.reason));
      verdict := Repaired;
    }

    lemma TwoRepairs(table: seq<Adjustment>, first: Adjustment, second: Adjustment)
      ensures var once := RepairRow(table, first, DUST);
              RepairRows(table, [first, second], DUST) == if once.Collision? then Collision
                else RepairRow(once.rows, second, DUST)
    {
      hide RepairRow;
      assert [first, second][..1] == [first] && [first][..0] == [];
      assert RepairRows(table, [first], DUST) == RepairRow(table, first, DUST);
    }

    method ParkPosition(store: SQLiteStore, st: RuntimeState, ccfSymbol: string, umc: real, ccf: real, req: Request)
      returns (verdict: RecoverVerdict)
      requires store.codec == site.codec && store.saved.Some?
      requires umc == Residual(site, store.Contents(), IbkrUmc, ccfSymbol)
               && ccf == Residual(site, store.Contents(), FubonCcf, ccfSymbol)
      modifies store
      ensures (verdict, store.Contents()) == Apply(site, old(store.Contents()), st, ccfSymbol, req)
    {
      hide RecordedExposure, InsertAdjustment, ToJson;
      var committed := store.Contents();
      var row := store.saved.value.rowIndex;
      var recovery := site.digest(row, st.position.umcUnits, st.position.ccfContracts, ccfSymbol);
      var ok := store.RecordManualFlatRecovery(PendingClose(recovery, req.now, None, row, ccfSymbol, req.reason, st),
                                               Adjustment(recovery, IbkrUmc, site.umcSymbol, -umc),
                                               Adjustment(recovery, FubonCcf, ccfSymbol, -ccf));
      if !ok {
        store.Rollback(committed);
        return KeyConflict;
      }
      store.SaveState(row, req.now, ClearExposure(st).(pnlStatus := Pending));
      store.RecordEvent(EventRow(row, req.now, "manual_flat_recovery", req.reason));
      verdict := Applied;
    }

    /**
     Returns a paused strategy to OPEN or FLAT once brokers, and the ledger while a close is waiting, agree with it.
     */
    method ClearPause(store: SQLiteStore, fetches: seq<Fetch>, now: int) returns (verdict: ClearVerdict)
      requires store.codec == site.codec
      modifies store
      ensures (verdict, store.Contents()) == RecoveryModel.ClearPause(site, old(store.Contents()), fetches, now)
    {
      hide FromJson, ToJson, AllIssues, LedgerIssues;
      var loaded := LoadResumeState(store);
      if loaded.None? {
        return NothingToClear;
      }
      var st := loaded.value;
      if st.state != Paused {
        return NotPausedNow(st.state);
      }
      var ccfSymbol := TradingSymbol(st, site.ccfSymbol);
      var pending := store.LoadPendingManualClose();
      var report: ReconciliationReport;
      if pending.Some? {
        var reconciler := new PostTradeReconciler(site.tol);
        report := reconciler.Reconcile(store, Some(st), fetches, site.umcSymbol, ccfSymbol);
      } else {
        var reconciler := new BrokerReconciler(site.tol);
        report := reconciler.Reconcile(Some(st), fetches, site.umcSymbol, ccfSymbol);
        assert report.issues + [] == report.issues;
      }
      if report.status != Matched {
        return Mismatched;
      }
      var target := if HasPosition(st) then Open else Flat;
      store.SaveState(store.saved.value.rowIndex, now, st.(state := target));
      store.RecordEvent(EventRow(store.saved.value.rowIndex, now, "clear_pause", ""));
      verdict := Cleared(target);
    }

    /** Books the round trip a recovery left unpriced, exactly once. */
    method SettleManualClose(store: SQLiteStore, req: SettleRequest) returns (verdict: SettleVerdict)
      requires store.codec == site.codec
      requires LatestWaiting(store.pendings).Some? && LatestWaiting(store.pendings).value.original.openTrade.Some? ==>
                 Priceable(site.fees, LatestWaiting(store.pendings).value.original.openTrade.value, req.prices)
      modifies store
      ensures (verdict, store.Contents()) == RecoveryModel.SettleManualClose(site, old(store.Contents()), req)
    {
      hide FromJson, ToJson, RecoveryModel.BuildSettlement, WaitingCount, SettlePending;
      if req.apply && req.reason == "" {
        return SettleReasonRequired;
      }
      if !req.fromBroker && req.prices.umcExitPriceUsd.None? {
        return NothingToPriceFrom;
      }
      if req.running {
        return EngineRunning;
      }
      var pending := store.LoadPendingManualClose();
      if pending.None? {
        return NoPending;
      }
      var loaded := LoadResumeState(store);
      if loaded.None? {
        return NothingToSettleAgainst;
      }
      var st := loaded.value;
      if st.pnlStatus == Complete {
        return AlreadyComplete;
      }
      if HasPosition(st) {
        return StillHolding;
      }
      if pending.value.original.openTrade.None? {
        return NoOpenTrade;
      }
      var open := pending.value.original.openTrade.value;
      var settlement := BuildSettlement(open, req.prices);
      if settlement.None? {
        return NoExitPrice;
      }
      if !settlement.value.pricesAgree {
        return PricesDisagree;
      }
      if !req.apply {
        return SettleDryRun;
      }
      var committed := store.Contents();
      var s, row := settlement.value, store.saved.value.rowIndex;
      store.RecordTrade(Settled(pending.value.recovery, open, s.grossPnlTwd, s.exitCosts.totalFeeTwd));
      store.SaveState(row, req.now, SettledState(st, s));
      var ok := store.RecordManualCloseSettlement(pending.value.recovery, req.now);
      if !ok {
        store.Rollback(committed);
        return NotPending;
      }
      store.RecordEvent(EventRow(row, req.now, "manual_close_settled", req.reason));
      verdict := BookedOnce;
    }

    method ImpliedExitPrice(open: OpenTrade, p: Prices) returns (implied: Option<real>)
      requires Priceable(site.fees, open, p)
      ensures implied == Implied(site.fees, open, p)
    {
      hide CostsAt, FairOf;
      implied := None;
      if p.realizedUsd.Some? && p.entryUmcPriceUsd.Some? {
        var guess := open.entryUmc;
        for pass := 0 to 2
          invariant pass == 0 ==> guess == open.entryUmc
          invariant pass > 0 ==>
                      implied == Some(ImpliedPrice(site.fees, open, p, pass))
                      && guess == FairOf(site.fees, p, implied.value)
        {
          var exitFeeUsd := CostsAt(site.fees, open, p, guess).umcFeeTwd / p.usdTwd;
          var price := p.entryUmcPriceUsd.value
            + (p.realizedUsd.value + open.costs.umcFeeTwd / p.usdTwd + exitFeeUsd) / open.position.umcUnits;
          implied, guess := Some(price), FairOf(site.fees, p, price);
        }
      }
    }

    /** The round trip priced; two passes over the exit fee when the price is implied by the broker's figure. */
    method BuildSettlement(open: OpenTrade, p: Prices) returns (settlement: Option<Settlement>)
      requires Priceable(site.fees, open, p)
      ensures settlement == RecoveryModel.BuildSettlement(site.fees, open, p)
    {
      hide CostsAt, FairOf, Implied, ModelUmcPnl;
      var implied := ImpliedExitPrice(open, p);
      if p.umcExitPriceUsd.None? && implied.None? {
        return None;
      }
      var exitPrice := if p.umcExitPriceUsd.Some? then p.umcExitPriceUsd.value else implied.value;
      var exitFair := FairOf(site.fees, p, exitPrice);
      var costs := CostsAt(site.fees, open, p, exitFair);
      var ccfPnl := open.position.ccfUnits * (p.ccfExitPrice - p.entryCcfPrice);
      var umcPnl, umcLegNet: real;
      if p.realizedUsd.Some? {
        umcLegNet := p.realizedUsd.value * p.usdTwd;
        umcPnl := umcLegNet + open.costs.umcFeeTwd + costs.umcFeeTwd;
      } else {
        umcPnl := ModelUmcPnl(site.fees, open, exitFair);
        umcLegNet := umcPnl - open.costs.umcFeeTwd - costs.umcFeeTwd;
      }
      var agree := implied.Some? && p.umcExitPriceUsd.Some? ==>
        Abs(p.umcExitPriceUsd.value - implied.value) <= p.toleranceUsd;
      var gross, totalFee := umcPnl + ccfPnl, open.costs.totalFeeTwd + costs.totalFeeTwd;
      settlement :=
        Some(Settlement(exitPrice, implied, umcPnl, umcLegNet, ccfPnl, costs, gross, totalFee, gross - totalFee,
                        agree));
      ghost var spec := RecoveryModel.BuildSettlement(site.fees, open, p).value;
      assert spec.umcPnl == umcPnl && spec.ccfPnl == ccfPnl && spec.grossPnlTwd == gross
        && spec.totalFeeTwd == totalFee;
    }
  }
}
