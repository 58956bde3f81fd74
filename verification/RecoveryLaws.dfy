/** What the recovery commands guarantee: a squared ledger, an unblocked strategy, and money booked exactly once. */
module RecoveryLaws {
  import opened Models
  import opened Sizing
  import opened StrategyModel
  import opened StrategyLaws
  import opened StateJson
  import opened Store
  import opened ReplayLaws
  import opened Reconciliation
  import opened RecoveryModel

  lemma SaveLoads(site: Site, t: Tables, rowIndex: int, now: int, st: RuntimeState)
    requires IsIso(site.codec)
    ensures LoadedState(site, Save(site, t, rowIndex, now, st)) == Some(st)
  {
    hide ToJson, FromJson;
    StateRoundTrip(site.codec, st);
  }

  // ---------------------------------------------------------------- the ledger

  predicate TolerancesSane(tol: Tolerances) {
    tol.umcUnits >= 0.0 && tol.ccfContracts >= 0
  }

  /** Both instruments square, exactly. */
  predicate Square(site: Site, t: Tables, ccfSymbol: string) {
    Residual(site, t, IbkrUmc, ccfSymbol) == 0.0 && Residual(site, t, FubonCcf, ccfSymbol) == 0.0
  }

  lemma InsertMoves(rows: seq<Adjustment>, row: Adjustment, broker: BrokerName, symbol: string)
    requires InsertAdjustment(rows, row).Written?
    ensures AdjustmentTotal(InsertAdjustment(rows, row).rows, broker, symbol)
         == AdjustmentTotal(rows, broker, symbol)
            + (if row.broker == broker && row.symbol == symbol then row.quantity else 0.0)
  {
    AdjustmentTotalConcat(rows, [row], broker, symbol);
    assert [row][1..] == [];
  }

  /** The first recovery squares any ledger exactly, whatever fills and corrections were in it. */
  lemma ApplySquares(site: Site, t: Tables, st: RuntimeState, ccfSymbol: string, req: Request)
    requires t.saved.Some? && Apply(site, t, st, ccfSymbol, req).0 == Applied
    ensures Square(site, Apply(site, t, st, ccfSymbol, req).1, ccfSymbol)
  {
    hide AdjustmentTotal, SignedQuantity, ToJson, InsertAdjustment;
    var recovery := site.digest(t.saved.value.rowIndex, st.position.umcUnits, st.position.ccfContracts, ccfSymbol);
    var umc := Adjustment(recovery, IbkrUmc, site.umcSymbol, -Residual(site, t, IbkrUmc, ccfSymbol));
    var ccf := Adjustment(recovery, FubonCcf, ccfSymbol, -Residual(site, t, FubonCcf, ccfSymbol));
    var once := InsertAdjustment(t.adjustments, umc).rows;
    InsertMoves(t.adjustments, umc, IbkrUmc, site.umcSymbol);
    InsertMoves(t.adjustments, umc, FubonCcf, ccfSymbol);
    InsertMoves(once, ccf, IbkrUmc, site.umcSymbol);
    InsertMoves(once, ccf, FubonCcf, ccfSymbol);
  }

  /** Every correction belongs to a parked close. */
  predicate Owned(rows: seq<Adjustment>, pendings: seq<PendingClose>) {
    forall i :: 0 <= i < |rows| ==> exists p :: p in pendings && p.recovery == rows[i].recovery
  }

  /** Keys a first recovery needs are free unless the recovery itself already exists. */
  predicate KeysOwned(t: Tables) {
    KeysUnique(t.adjustments) && Owned(t.adjustments, t.pendings)
  }

  lemma ApplyRefusedExactlyWhen(site: Site, t: Tables, st: RuntimeState, ccfSymbol: string, req: Request)
    requires t.saved.Some? && KeysOwned(t)
    ensures var recovery := site.digest(t.saved.value.rowIndex, st.position.umcUnits, st.position.ccfContracts,
                                        ccfSymbol);
            var (verdict, after) := Apply(site, t, st, ccfSymbol, req);
            && (verdict == KeyConflict <==> exists p :: p in t.pendings && p.recovery == recovery)
            && (verdict == KeyConflict || verdict == Applied)
            && KeysOwned(after)
  {
    hide AdjustmentTotal, SignedQuantity, ToJson, Residual;
    var recovery := site.digest(t.saved.value.rowIndex, st.position.umcUnits, st.position.ccfContracts, ccfSymbol);
    if !exists p :: p in t.pendings && p.recovery == recovery {
      assert !HasKey(t.adjustments, recovery, IbkrUmc) && !HasKey(t.adjustments, recovery, FubonCcf);
      var after := Apply(site, t, st, ccfSymbol, req).1;
      var parked := after.pendings[|t.pendings|];
      assert parked in after.pendings && parked.recovery == recovery;
      assert forall p :: p in t.pendings ==> p in after.pendings;
    }
  }

  lemma RepairMoves(rows: seq<Adjustment>, row: Adjustment, broker: BrokerName, symbol: string)
    requires KeysUnique(rows) && RepairRow(rows, row, DUST).Written?
    ensures KeysUnique(RepairRow(rows, row, DUST).rows)
    ensures AdjustmentTotal(RepairRow(rows, row, DUST).rows, broker, symbol)
         == AdjustmentTotal(rows, broker, symbol)
            + (if Abs(row.quantity) > DUST && row.broker == broker && row.symbol == symbol then row.quantity else 0.0)
  {
    UpsertAccumulates(rows, row, broker, symbol);
  }

  function Kept(residual: real): real {
    if Abs(residual) <= DUST then residual else 0.0
  }

  /** A repair squares each instrument exactly, except for residues small enough for it to skip. */
  lemma RepairSquares(site: Site, t: Tables, recovery: string, ccfSymbol: string, req: Request)
    requires t.saved.Some? && KeysUnique(t.adjustments) && Repair(site, t, recovery, ccfSymbol, req).0 == Repaired
    ensures var after := Repair(site, t, recovery, ccfSymbol, req).1;
            && Residual(site, after, IbkrUmc, ccfSymbol) == Kept(Residual(site, t, IbkrUmc, ccfSymbol))
            && Residual(site, after, FubonCcf, ccfSymbol) == Kept(Residual(site, t, FubonCcf, ccfSymbol))
  {
    hide AdjustmentTotal, SignedQuantity, RepairRow, KeysUnique;
    var umc := Adjustment(recovery, IbkrUmc, site.umcSymbol, -Residual(site, t, IbkrUmc, ccfSymbol));
    var ccf := Adjustment(recovery, FubonCcf, ccfSymbol, -Residual(site, t, FubonCcf, ccfSymbol));
    var once := RepairRow(t.adjustments, umc, DUST).rows;
    RepairMoves(t.adjustments, umc, IbkrUmc, site.umcSymbol);
    RepairMoves(t.adjustments, umc, FubonCcf, ccfSymbol);
    RepairMoves(once, ccf, IbkrUmc, site.umcSymbol);
    RepairMoves(once, ccf, FubonCcf, ccfSymbol);
  }

  /** A recovery's own correction of one venue carries this symbol, or there is none yet. */
  predicate SameSymbol(t: Tables, recovery: string, broker: BrokerName, symbol: string) {
    forall i :: 0 <= i < |t.adjustments| && t.adjustments[i].recovery == recovery && t.adjustments[i].broker == broker
                ==> t.adjustments[i].symbol == symbol
  }

  /** A correction the ledger needs falls on a venue this recovery corrected under another symbol. */
  predicate RepairClashes(site: Site, t: Tables, recovery: string, ccfSymbol: string) {
    || (Abs(Residual(site, t, IbkrUmc, ccfSymbol)) > DUST && !SameSymbol(t, recovery, IbkrUmc, site.umcSymbol))
    || (Abs(Residual(site, t, FubonCcf, ccfSymbol)) > DUST && !SameSymbol(t, recovery, FubonCcf, ccfSymbol))
  }

  /**
   A repair is refused exactly when a correction it has to make falls on a venue this recovery already corrected under
   another symbol: after a contract roll the row key is taken.
   */
  lemma RepairRefusedExactlyWhen(site: Site, t: Tables, recovery: string, ccfSymbol: string, req: Request)
    requires t.saved.Some? && KeysUnique(t.adjustments)
    ensures Repair(site, t, recovery, ccfSymbol, req).0 == KeyConflict <==> RepairClashes(site, t, recovery, ccfSymbol)
    ensures Repair(site, t, recovery, ccfSymbol, req).0 in {KeyConflict, Repaired}
  {
    hide AdjustmentTotal, SignedQuantity;
    var umc := Adjustment(recovery, IbkrUmc, site.umcSymbol, -Residual(site, t, IbkrUmc, ccfSymbol));
    var ccf := Adjustment(recovery, FubonCcf, ccfSymbol, -Residual(site, t, FubonCcf, ccfSymbol));
    UpsertAccumulates(t.adjustments, umc, IbkrUmc, site.umcSymbol);
    if RepairRow(t.adjustments, umc, DUST).Written? {
      var once := RepairRow(t.adjustments, umc, DUST).rows;
      RepairMoves(t.adjustments, umc, IbkrUmc, site.umcSymbol);
      UpsertAccumulates(once, ccf, FubonCcf, ccfSymbol);
      if Abs(umc.quantity) > DUST {
        OtherVenueUntouched(t.adjustments, umc, recovery, FubonCcf, ccfSymbol);
      }
    }
  }

  predicate Clashes(rows: seq<Adjustment>, recovery: string, broker: BrokerName, symbol: string) {
    exists i :: 0 <= i < |rows| && rows[i].recovery == recovery && rows[i].broker == broker && rows[i].symbol != symbol
  }

  lemma {:induction false} OtherVenueUntouched(rows: seq<Adjustment>, row: Adjustment, recovery: string,
                                               broker: BrokerName, symbol: string)
    requires UpsertAdjustment(rows, row).Written? && row.broker != broker
    ensures Clashes(UpsertAdjustment(rows, row).rows, recovery, broker, symbol)
            <==> Clashes(rows, recovery, broker, symbol)
  {
    var after := UpsertAdjustment(rows, row).rows;
    if rows != [] {
      if rows[0].recovery == row.recovery && rows[0].broker == row.broker {
        assert forall i :: 1 <= i < |rows| ==> after[i] == rows[i];
      } else {
        OtherVenueUntouched(rows[1..], row, recovery, broker, symbol);
        var rest := UpsertAdjustment(rows[1..], row).rows;
        assert after == [rows[0]] + rest && rows == [rows[0]] + rows[1..];
        ClashesSplit(rows[0], rest, recovery, broker, symbol);
        ClashesSplit(rows[0], rows[1..], recovery, broker, symbol);
      }
    }
  }

  lemma ClashesSplit(first: Adjustment, rest: seq<Adjustment>, recovery: string, broker: BrokerName, symbol: string)
    ensures Clashes([first] + rest, recovery, broker, symbol)
            <==> (first.recovery == recovery && first.broker == broker && first.symbol != symbol)
                 || Clashes(rest, recovery, broker, symbol)
  {
    var all := [first] + rest;
    assert forall i :: 0 <= i < |rest| ==> rest[i] == all[i + 1];
    if Clashes(all, recovery, broker, symbol)
      && !(first.recovery == recovery && first.broker == broker && first.symbol != symbol) {
      var i :| 0 <= i < |all| && all[i].recovery == recovery && all[i].broker == broker && all[i].symbol != symbol;
      assert rest[i - 1] == all[i];
    }
    if first.recovery == recovery && first.broker == broker && first.symbol != symbol {
      assert all[0] == first;
    }
    if Clashes(rest, recovery, broker, symbol) {
      var i :| 0 <= i < |rest| && rest[i].recovery == recovery && rest[i].broker == broker && rest[i].symbol != symbol;
      assert all[i + 1] == rest[i];
    }
  }

  // ---------------------------------------------------------------- unblocking

  lemma ClearedExpectsFlat(site: Site, st: RuntimeState)
    requires st.state == Paused
    ensures var cleared := ClearExposure(st).(pnlStatus := Pending);
            var ccfSymbol := TradingSymbol(st, site.ccfSymbol);
            && TradingSymbol(cleared, site.ccfSymbol) == ccfSymbol
            && ExpectedFromStrategy(site.tol, Some(cleared), site.umcSymbol, ccfSymbol)
               == Expected(site.umcSymbol, ccfSymbol, 0.0, 0)
            && ExpectedFromStrategy(site.tol, Some(ClearExposure(st)), site.umcSymbol, ccfSymbol)
               == Expected(site.umcSymbol, ccfSymbol, 0.0, 0)
  {
  }

  /**
   Applied recovery always unblocks: with the same broker answers the next clear-pause reconciles and returns to FLAT,
   from any ledger at all; and running the recovery again finds nothing to do.
   */
  lemma RecoveryUnblocks(site: Site, t: Tables, req: Request, now: int)
    requires IsIso(site.codec) && TolerancesSane(site.tol) && RecoverManualFlat(site, t, req).0 == Applied
    ensures var after := RecoverManualFlat(site, t, req).1;
            && ClearPause(site, after, req.fetches, now).0 == Cleared(Flat)
            && RecoverManualFlat(site, after, req) == (AlreadySquare, after)
            && LatestWaiting(after.pendings).Some?
  {
    var st := LoadedState(site, t).value;
    AppliedComesFrom(site, t, req);
    AppliedShape(site, t, st, TradingSymbol(st, site.ccfSymbol), req);
    ApplySquares(site, t, st, TradingSymbol(st, site.ccfSymbol), req);
    hide RecoverManualFlat, Apply, LoadedState, LatestWaiting;
    AppliedNeeds(site, t, req);
    var after := Apply(site, t, st, TradingSymbol(st, site.ccfSymbol), req).1;
    ClearedExpectsFlat(site, st);
    SquareFlatClears(site, after, ClearExposure(st).(pnlStatus := Pending), req.fetches, now);
    SquareFlatRerun(site, after, ClearExposure(st).(pnlStatus := Pending), req);
  }

  lemma AppliedNeeds(site: Site, t: Tables, req: Request)
    requires RecoverManualFlat(site, t, req).0 == Applied
    ensures var st := LoadedState(site, t).value;
            && LoadedState(site, t).Some? && st.state == Paused && !req.running && req.apply && req.reason != ""
            && BrokersFlat(site, st, TradingSymbol(st, site.ccfSymbol), req.fetches)
  {
    hide FromJson, LatestWaiting, BrokersFlat, Apply;
    if t.saved.Some? {
      RepairNeverApplies(site, t, req);
    }
  }

  /** A paused, flat strategy over a square ledger and flat brokers clears to FLAT. */
  lemma SquareFlatClears(site: Site, t: Tables, st: RuntimeState, fetches: seq<Fetch>, now: int)
    requires TolerancesSane(site.tol) && LoadedState(site, t) == Some(st) && t.saved.Some? && st.state == Paused
             && !HasPosition(st)
    requires Square(site, t, TradingSymbol(st, site.ccfSymbol))
             && BrokersFlat(site, st, TradingSymbol(st, site.ccfSymbol), fetches)
    ensures ClearPause(site, t, fetches, now).0 == Cleared(Flat)
  {
    var ccfSymbol := TradingSymbol(st, site.ccfSymbol);
    FlatExpected(site, st);
    hide AllIssues, SignedQuantity, AdjustmentTotal, LoadedState, LatestWaiting, ToJson;
    PostTradeStatus(site.tol, fetches, t, Expected(site.umcSymbol, ccfSymbol, 0.0, 0));
    BrokerStatus(site.tol, fetches, Expected(site.umcSymbol, ccfSymbol, 0.0, 0));
    assert AllIssues(site.tol, fetches, Expected(site.umcSymbol, ccfSymbol, 0.0, 0)) + []
      == AllIssues(site.tol, fetches, Expected(site.umcSymbol, ccfSymbol, 0.0, 0));
  }

  lemma SquareFlatRerun(site: Site, t: Tables, st: RuntimeState, req: Request)
    requires LoadedState(site, t) == Some(st) && !HasPosition(st) && LatestWaiting(t.pendings).Some?
             && st.state == Paused
    requires !req.running && req.reason != ""
    requires Square(site, t, TradingSymbol(st, site.ccfSymbol))
             && BrokersFlat(site, st, TradingSymbol(st, site.ccfSymbol), req.fetches)
    ensures RecoverManualFlat(site, t, req) == (AlreadySquare, t)
  {
    hide Residual, BrokersFlat, LoadedState, LatestWaiting, Apply, Repair;
  }

  lemma AppliedShape(site: Site, t: Tables, st: RuntimeState, ccfSymbol: string, req: Request)
    requires IsIso(site.codec) && t.saved.Some? && Apply(site, t, st, ccfSymbol, req).0 == Applied
    ensures var after := Apply(site, t, st, ccfSymbol, req).1;
            && LoadedState(site, after) == Some(ClearExposure(st).(pnlStatus := Pending))
            && |after.pendings| == |t.pendings| + 1 && after.pendings[..|t.pendings|] == t.pendings
            && after.pendings[|t.pendings|].Waiting() && after.pendings[|t.pendings|].original == st
            && LatestWaiting(after.pendings).Some?
            && after.fills == t.fills && after.trades == t.trades
  {
    hide ToJson, FromJson, AdjustmentTotal, SignedQuantity, Residual;
    var after := Apply(site, t, st, ccfSymbol, req).1;
    SaveLoads(site, t, t.saved.value.rowIndex, req.now, ClearExposure(st).(pnlStatus := Pending));
    assert after.pendings[|t.pendings|] in after.pendings;
  }

  /**
   After a repair the ledger passes post-trade reconciliation exactly when each residue was worth correcting or is
   within tolerance.
   */
  lemma RepairUnblocksExactlyWhen(site: Site, t: Tables, req: Request)
    requires TolerancesSane(site.tol) && KeysUnique(t.adjustments) && RecoverManualFlat(site, t, req).0 == Repaired
    requires LoadedState(site, t).value.state == Paused
    ensures var st := LoadedState(site, t).value;
            var ccfSymbol := TradingSymbol(st, site.ccfSymbol);
            var after := RecoverManualFlat(site, t, req).1;
            ClearStatus(site, after, st, req.fetches) == Matched
            <==> && (Abs(Residual(site, t, IbkrUmc, ccfSymbol)) > DUST
                     || Abs(Residual(site, t, IbkrUmc, ccfSymbol)) <= site.tol.umcUnits)
                 && (Abs(Residual(site, t, FubonCcf, ccfSymbol)) > DUST
                     || Abs(Residual(site, t, FubonCcf, ccfSymbol)) <= site.tol.ccfContracts as real)
  {
    var st := LoadedState(site, t).value;
    var ccfSymbol := TradingSymbol(st, site.ccfSymbol);
    var after := RecoverManualFlat(site, t, req).1;
    var recovery := LatestWaiting(t.pendings).value.recovery;
    RepairSquares(site, t, recovery, ccfSymbol, req);
    RepairKeeps(site, t, recovery, ccfSymbol, req);
    FlatExpected(site, st);
    hide AllIssues, SignedQuantity, AdjustmentTotal, FromJson, Repair, LatestWaiting;
    PostTradeStatus(site.tol, req.fetches, after, Expected(site.umcSymbol, ccfSymbol, 0.0, 0));
    BrokerStatus(site.tol, req.fetches, Expected(site.umcSymbol, ccfSymbol, 0.0, 0));
  }

  lemma RepairKeeps(site: Site, t: Tables, recovery: string, ccfSymbol: string, req: Request)
    requires t.saved.Some?
    ensures var (verdict, after) := Repair(site, t, recovery, ccfSymbol, req);
            after.pendings == t.pendings && after.fills == t.fills && after.trades == t.trades && after.saved == t.saved
  {
    hide Residual, UpsertAdjustment;
  }

  lemma FlatExpected(site: Site, st: RuntimeState)
    requires st.state == Paused && !HasPosition(st)
    ensures var ccfSymbol := TradingSymbol(st, site.ccfSymbol);
            && ExpectedFromStrategy(site.tol, Some(st), site.umcSymbol, ccfSymbol)
               == Expected(site.umcSymbol, ccfSymbol, 0.0, 0)
            && ExpectedFromStrategy(site.tol, Some(ClearExposure(st)), site.umcSymbol, ccfSymbol)
               == Expected(site.umcSymbol, ccfSymbol, 0.0, 0)
  {
  }

  // ---------------------------------------------------------------- the money

  function ParkedFee(p: PendingClose): real {
    if p.Waiting() then OpenFee(p.original.openTrade) else 0.0
  }

  /** Entry fees already charged for closes that still wait for their price. */
  function ParkedFees(pendings: seq<PendingClose>): real {
    if pendings == [] then 0.0 else ParkedFee(pendings[0]) + ParkedFees(pendings[1..])
  }

  lemma {:induction false} ParkedFeesConcat(a: seq<PendingClose>, b: seq<PendingClose>)
    ensures ParkedFees(a + b) == ParkedFees(a) + ParkedFees(b)
  {
    if a == [] {
      assert a + b == b;
    } else {
      assert (a + b)[1..] == a[1..] + b;
      ParkedFeesConcat(a[1..], b);
    }
  }

  /** Realised money is the booked trades, less the entry fees of whatever is open or parked. */
  predicate MoneyBalanced(st: RuntimeState, pendings: seq<PendingClose>, trades: seq<TradeRow>) {
    && st.realizedPnl + OpenFee(st.openTrade) + ParkedFees(pendings) == TotalNet(trades)
    && st.realizedFeeTwd - OpenFee(st.openTrade) - ParkedFees(pendings) == TotalFees(trades)
  }

  ghost predicate StoreBalanced(site: Site, t: Tables) {
    LoadedState(site, t).Some? && MoneyBalanced(LoadedState(site, t).value, t.pendings, t.trades)
  }

  lemma {:induction false} NoneWaiting(pendings: seq<PendingClose>, recovery: string, settledAt: int)
    requires WaitingCount(pendings, recovery) == 0
    ensures SettlePending(pendings, recovery, settledAt) == pendings
  {
    if pendings != [] {
      NoneWaiting(pendings[1..], recovery, settledAt);
    }
  }

  /** Settling the only waiting row of a recovery releases exactly its parked fee and leaves no waiting row of it. */
  lemma {:induction false} SettleReleases(pendings: seq<PendingClose>, recovery: string, settledAt: int,
                                          p: PendingClose)
    requires WaitingCount(pendings, recovery) == 1 && p in pendings && p.recovery == recovery && p.Waiting()
    ensures var after := SettlePending(pendings, recovery, settledAt);
            && ParkedFees(after) == ParkedFees(pendings) - OpenFee(p.original.openTrade)
            && WaitingCount(after, recovery) == 0
            && (LatestWaiting(after).Some? <==> exists q :: q in pendings && q.Waiting() && q.recovery != recovery)
  {
    var rest := pendings[1..];
    if pendings[0].recovery == recovery && pendings[0].Waiting() {
      NoneWaiting(rest, recovery, settledAt);
      CountMembers(rest, recovery);
      assert SettlePending(pendings, recovery, settledAt)[1..] == rest;
      assert pendings[0] == p;
    } else {
      SettleReleases(rest, recovery, settledAt, p);
      assert SettlePending(pendings, recovery, settledAt)[1..] == SettlePending(rest, recovery, settledAt);
    }
    OthersStillWait(pendings, recovery, settledAt);
  }

  lemma {:induction false} CountMembers(pendings: seq<PendingClose>, recovery: string)
    ensures WaitingCount(pendings, recovery) == 0
            <==> forall q :: q in pendings && q.recovery == recovery ==> !q.Waiting()
  {
    if pendings != [] {
      CountMembers(pendings[1..], recovery);
    }
  }

  lemma {:induction false} OthersStillWait(pendings: seq<PendingClose>, recovery: string, settledAt: int)
    ensures (exists q :: q in SettlePending(pendings, recovery, settledAt) && q.Waiting())
            <==> exists q :: q in pendings && q.Waiting() && q.recovery != recovery
  {
    if pendings != [] {
      OthersStillWait(pendings[1..], recovery, settledAt);
      var after := SettlePending(pendings, recovery, settledAt);
      assert after == [after[0]] + SettlePending(pendings[1..], recovery, settledAt);
      assert pendings == [pendings[0]] + pendings[1..];
    }
  }

  lemma BookingBalances(site: Site, t: Tables, st: RuntimeState, p: PendingClose, s: Settlement, req: SettleRequest)
    requires IsIso(site.codec) && t.saved.Some? && p.original.openTrade.Some? && p in t.pendings && p.Waiting()
    requires LoadedState(site, t) == Some(st) && StoreBalanced(site, t)
             && BookSettlement(site, t, st, p, s, req).0 == BookedOnce
    ensures var after := BookSettlement(site, t, st, p, s, req).1;
            && StoreBalanced(site, after) && LoadedState(site, after) == Some(SettledState(st, s))
            && after.trades
               == t.trades + [Settled(p.recovery, p.original.openTrade.value, s.grossPnlTwd, s.exitCosts.totalFeeTwd)]
            && WaitingCount(after.pendings, p.recovery) == 0
            && (LatestWaiting(after.pendings).Some?
                <==> exists q :: q in t.pendings && q.Waiting() && q.recovery != p.recovery)
  {
    hide ToJson, FromJson, ParkedFees, LatestWaiting, SettlePending, WaitingCount;
    SettleReleases(t.pendings, p.recovery, req.now, p);
    SaveLoads(site, t, t.saved.value.rowIndex, req.now, SettledState(st, s));
    var after := BookSettlement(site, t, st, p, s, req).1;
    assert after.trades[..|t.trades|] == t.trades;
  }

  lemma AppliedComesFrom(site: Site, t: Tables, req: Request)
    requires RecoverManualFlat(site, t, req).0 == Applied
    ensures t.saved.Some? && LoadedState(site, t).Some?
    ensures var st := LoadedState(site, t).value;
            RecoverManualFlat(site, t, req) == Apply(site, t, st, TradingSymbol(st, site.ccfSymbol), req)
  {
    hide FromJson, Apply, LatestWaiting, AllIssues;
    if t.saved.Some? {
      RepairNeverApplies(site, t, req);
    }
  }

  lemma RepairNeverApplies(site: Site, t: Tables, req: Request)
    requires t.saved.Some?
    ensures forall recovery: string, ccfSymbol: string :: Repair(site, t, recovery, ccfSymbol, req).0 != Applied
  {
    hide Residual, UpsertAdjustment;
  }

  lemma RecoverOtherwise(site: Site, t: Tables, req: Request)
    requires RecoverManualFlat(site, t, req).0 != Applied
    ensures var after := RecoverManualFlat(site, t, req).1;
            after.pendings == t.pendings && after.trades == t.trades && after.saved == t.saved
  {
    hide FromJson, LatestWaiting, AllIssues, UpsertAdjustment, ToJson;
  }

  // ---------------------------------------------------------------- what clear-pause and recovery need

  /** A broker answered and holds this quantity of its instrument, nothing sizeable elsewhere, and no working order. */
  predicate Holds(tol: Tolerances, fetch: Fetch, symbol: string, quantity: real) {
    && fetch.Fetched?
    && var (held, slack) := (fetch.snapshot.positions, tol.Of(fetch.snapshot.broker));
       && Abs(HeldOn(held, symbol) - quantity) <= slack
       && (forall p :: p in held && p.symbol != symbol ==> Abs(p.quantity) <= slack)
       && fetch.snapshot.openOrders == []
  }

  /** Every broker holds its part of a pair. */
  predicate BrokersHold(site: Site, st: RuntimeState, fetches: seq<Fetch>, umcUnits: real, ccfContracts: int) {
    forall f :: f in fetches ==>
      f.Fetched?
      && if f.snapshot.broker == IbkrUmc then Holds(site.tol, f, site.umcSymbol, umcUnits)
         else Holds(site.tol, f, TradingSymbol(st, site.ccfSymbol), ccfContracts as real)
  }

  /** The ledger says the same. */
  predicate LedgerHolds(site: Site, t: Tables, st: RuntimeState, umcUnits: real, ccfContracts: int) {
    && Abs(Residual(site, t, IbkrUmc, TradingSymbol(st, site.ccfSymbol)) - umcUnits) <= site.tol.umcUnits
    && Abs(Residual(site, t, FubonCcf, TradingSymbol(st, site.ccfSymbol)) - ccfContracts as real)
       <= site.tol.ccfContracts as real
  }

  /** A paused strategy that has a direction and more than the tolerance of either leg stands by its position. */
  predicate StandsBy(tol: Tolerances, st: RuntimeState) {
    && st.direction.Some?
    && (Abs(st.position.umcUnits) > tol.umcUnits || AbsInt(st.position.ccfContracts) > tol.ccfContracts)
  }

  /** What a paused strategy expects to find. */
  lemma PausedExpects(site: Site, st: RuntimeState)
    requires st.state == Paused
    ensures ExpectedFromStrategy(site.tol, Some(st), site.umcSymbol, TradingSymbol(st, site.ccfSymbol))
         == Expected(site.umcSymbol, TradingSymbol(st, site.ccfSymbol),
                     if StandsBy(site.tol, st) then st.position.umcUnits else 0.0,
                     if StandsBy(site.tol, st) then st.position.ccfContracts else 0)
  {
  }

  lemma BrokersHoldClean(site: Site, st: RuntimeState, fetches: seq<Fetch>, umcUnits: real, ccfContracts: int)
    ensures var expected := Expected(site.umcSymbol, TradingSymbol(st, site.ccfSymbol), umcUnits, ccfContracts);
            BrokersHold(site, st, fetches, umcUnits, ccfContracts) <==> forall f :: f in fetches ==>
              Clean(site.tol, f, expected)
  {
  }

  /** What a paused strategy stands by is found: by every broker, and while a close is waiting by the ledger too. */
  predicate FindsItsPosition(site: Site, t: Tables, st: RuntimeState, fetches: seq<Fetch>) {
    var (umc, ccf) := if StandsBy(site.tol, st) then (st.position.umcUnits, st.position.ccfContracts) else (0.0, 0);
    && BrokersHold(site, st, fetches, umc, ccf)
    && ((exists p :: p in t.pendings && p.Waiting()) ==> LedgerHolds(site, t, st, umc, ccf))
  }

  lemma MatchedMeansFound(site: Site, t: Tables, st: RuntimeState, fetches: seq<Fetch>)
    requires st.state == Paused
    ensures ClearStatus(site, t, st, fetches) == Matched <==> FindsItsPosition(site, t, st, fetches)
  {
    var (umc, ccf) := if StandsBy(site.tol, st) then (st.position.umcUnits, st.position.ccfContracts) else (0.0, 0);
    PausedExpects(site, st);
    BrokersHoldClean(site, st, fetches, umc, ccf);
    var expected := Expected(site.umcSymbol, TradingSymbol(st, site.ccfSymbol), umc, ccf);
    BrokerStatus(site.tol, fetches, expected);
    PostTradeStatus(site.tol, fetches, t, expected);
    assert AllIssues(site.tol, fetches, expected) + [] == AllIssues(site.tol, fetches, expected);
    hide ExpectedFromStrategy, AllIssues, LedgerIssues, LatestWaiting, StandsBy, BrokersHold, Clean, RecordedExposure,
         ReportStatus;
  }

  /**
   When a pause is lifted, exactly: the strategy is paused, every broker holds what it stands by, and while a manual
   close is waiting the ledger does too. It goes on OPEN with its position, or FLAT when it has none, and nothing else
   of it changes; otherwise the store stays as it was.
   */
  lemma ClearPauseExactlyWhen(site: Site, t: Tables, fetches: seq<Fetch>, now: int)
    requires IsIso(site.codec)
    ensures var (verdict, after) := ClearPause(site, t, fetches, now);
            && (verdict.Cleared? <==>
                  && LoadedState(site, t).Some? && LoadedState(site, t).value.state == Paused
                  && FindsItsPosition(site, t, LoadedState(site, t).value, fetches))
            && (!verdict.Cleared? ==> after == t)
            && (verdict.Cleared? ==>
                  && LoadedState(site, t).Some?
                  && var st := LoadedState(site, t).value;
                     && verdict.target == (if HasPosition(st) then Open else Flat)
                     && LoadedState(site, after) == Some(st.(state := verdict.target))
                     && after.fills == t.fills && after.adjustments == t.adjustments && after.pendings == t.pendings
                     && after.trades == t.trades)
  {
    if LoadedState(site, t).Some? && LoadedState(site, t).value.state == Paused {
      var st := LoadedState(site, t).value;
      MatchedMeansFound(site, t, st, fetches);
      StateRoundTrip(site.codec, st.(state := if HasPosition(st) then Open else Flat));
    }
    hide ClearStatus, FindsItsPosition, ToJson, FromJson;
  }

  /** What a recovery expects of the brokers: nothing, on either instrument. */
  lemma FlatMeansHolding(site: Site, st: RuntimeState, fetches: seq<Fetch>)
    requires TolerancesSane(site.tol)
    ensures BrokersFlat(site, st, TradingSymbol(st, site.ccfSymbol), fetches)
            <==> BrokersHold(site, st, fetches, 0.0, 0)
  {
    var expected := Expected(site.umcSymbol, TradingSymbol(st, site.ccfSymbol), 0.0, 0);
    assert ExpectedFromStrategy(site.tol, Some(ClearExposure(st)), site.umcSymbol, TradingSymbol(st, site.ccfSymbol))
        == expected;
    BrokersHoldClean(site, st, fetches, 0.0, 0);
    BrokerStatus(site.tol, fetches, expected);
    hide BrokersHold, Clean, AllIssues, ReportStatus, ExpectedFromStrategy;
  }

  /**
   When an externally closed position is recovered, exactly: asked for with a reason, nothing running, the strategy
   paused with a directed position, every broker flat on both instruments, and no recovery of that name yet. Anything
   else books nothing and parks nothing.
   */
  lemma RecoverAppliesExactlyWhen(site: Site, t: Tables, req: Request)
    requires KeysOwned(t) && TolerancesSane(site.tol)
    ensures var (verdict, after) := RecoverManualFlat(site, t, req);
            && (verdict == Applied <==>
                  && req.apply && req.reason != "" && !req.running
                  && LoadedState(site, t).Some?
                  && var st := LoadedState(site, t).value;
                     && st.state == Paused && st.direction.Some?
                     && BrokersHold(site, st, req.fetches, 0.0, 0)
                     && !exists p :: p in t.pendings
                                     && p.recovery == site.digest(t.saved.value.rowIndex, st.position.umcUnits,
                                                                  st.position.ccfContracts,
                                                                  TradingSymbol(st, site.ccfSymbol)))
            && (verdict != Applied ==>
                  after.pendings == t.pendings && after.trades == t.trades && after.saved == t.saved)
  {
    if LoadedState(site, t).Some? {
      var st := LoadedState(site, t).value;
      if st.state == Paused {
        FlatMeansHolding(site, st, req.fetches);
        ApplyRefusedExactlyWhen(site, t, st, TradingSymbol(st, site.ccfSymbol), req);
      }
      RepairNeverApplies(site, t, req);
    }
    if RecoverManualFlat(site, t, req).0 != Applied {
      RecoverOtherwise(site, t, req);
    }
    hide Apply, Repair, BrokersFlat, BrokersHold, FromJson, Residual, KeysOwned;
  }

  /**
   When a recovery re-squares the ledger instead, exactly: a close is waiting, the strategy holds nothing, every broker
   is flat, the ledger is off by more than dust somewhere, and the correction's row key is free.
   */
  lemma RecoverRepairsExactlyWhen(site: Site, t: Tables, req: Request)
    requires KeysOwned(t) && TolerancesSane(site.tol)
    ensures RecoverManualFlat(site, t, req).0 == Repaired <==>
              && req.apply && req.reason != "" && !req.running
              && LoadedState(site, t).Some? && LatestWaiting(t.pendings).Some?
              && var (st, waiting) := (LoadedState(site, t).value, LatestWaiting(t.pendings).value);
                 var ccfSymbol := TradingSymbol(st, site.ccfSymbol);
                 && !HasPosition(st) && BrokersHold(site, st, req.fetches, 0.0, 0)
                 && (Abs(Residual(site, t, IbkrUmc, ccfSymbol)) > DUST
                     || Abs(Residual(site, t, FubonCcf, ccfSymbol)) > DUST)
                 && !RepairClashes(site, t, waiting.recovery, ccfSymbol)
  {
    if LoadedState(site, t).Some? {
      var st := LoadedState(site, t).value;
      FlatMeansHolding(site, st, req.fetches);
      ApplyNeverRepairs(site, t, st, TradingSymbol(st, site.ccfSymbol), req);
      if LatestWaiting(t.pendings).Some? {
        RepairRefusedExactlyWhen(site, t, LatestWaiting(t.pendings).value.recovery, TradingSymbol(st, site.ccfSymbol),
                                 req);
      }
    }
    hide Apply, Repair, BrokersFlat, BrokersHold, FromJson, Residual, KeysOwned, RepairClashes, LatestWaiting;
  }

  lemma ApplyNeverRepairs(site: Site, t: Tables, st: RuntimeState, ccfSymbol: string, req: Request)
    requires t.saved.Some?
    ensures Apply(site, t, st, ccfSymbol, req).0 != Repaired
  {
    hide Residual, ToJson, InsertAdjustment;
  }

  // ---------------------------------------------------------------- settlement arithmetic

  /**
   On the broker's figure the UMC leg nets to that figure exactly, whatever exit price and fee split the model assumed.
   */
  lemma BrokerFigureStands(fees: FeeConfig, open: OpenTrade, p: Prices)
    requires Priceable(fees, open, p) && BuildSettlement(fees, open, p).Some? && p.realizedUsd.Some?
    requires open.costs.totalFeeTwd == open.costs.umcFeeTwd + open.costs.ccfFeeTwd + open.costs.ccfTaxTwd
    ensures var s := BuildSettlement(fees, open, p).value;
            && s.netPnlTwd == p.realizedUsd.value * p.usdTwd
                              + s.ccfPnl - (open.costs.ccfFeeTwd + open.costs.ccfTaxTwd)
                                - (s.exitCosts.ccfFeeTwd + s.exitCosts.ccfTaxTwd)
            && s.umcPnl - open.costs.umcFeeTwd - s.exitCosts.umcFeeTwd == s.umcLegNet == p.realizedUsd.value * p.usdTwd
  {
    hide ImpliedPrice;
  }

  lemma SharesOf(x: real, units: real)
    requires units != 0.0
    ensures units * (x / units) == x
  {
  }

  /** The USD price pass number `passes` starts from: the entry's own, then what the pass before implied. */
  function PassPrice(fees: FeeConfig, open: OpenTrade, p: Prices, passes: nat): real
    requires Priceable(fees, open, p) && p.realizedUsd.Some? && p.entryUmcPriceUsd.Some?
  {
    if passes == 0 then open.entryUmc * fees.umcContractMultiplier / p.usdTwd else ImpliedPrice(fees, open, p, passes)
  }

  /** What an exit price leaves unexplained of the broker's figure, its own exit fee included. */
  function Unexplained(fees: FeeConfig, open: OpenTrade, p: Prices, priceUsd: real): real
    requires Priceable(fees, open, p) && p.realizedUsd.Some? && p.entryUmcPriceUsd.Some?
  {
    p.realizedUsd.value
    - (open.position.umcUnits * (priceUsd - p.entryUmcPriceUsd.value)
       - open.costs.umcFeeTwd / p.usdTwd - CostsAt(fees, open, p, FairOf(fees, p, priceUsd)).umcFeeTwd / p.usdTwd)
  }

  /** The fee rate, on the side of the position. */
  function Slope(fees: FeeConfig, open: OpenTrade): real {
    if open.position.umcUnits < 0.0 then -(fees.umcFeeBps / 10000.0) else fees.umcFeeBps / 10000.0
  }

  function Power(x: real, n: nat): real {
    if n == 0 then 1.0 else x * Power(x, n - 1)
  }

  lemma FairOfPrice(fees: FeeConfig, p: Prices, priceUsd: real)
    requires fees.umcContractMultiplier > 0.0
    ensures UmcContractTwdPrice(FairOf(fees, p, priceUsd), fees) == priceUsd * p.usdTwd
  {
  }

  lemma FairOfEntry(fees: FeeConfig, open: OpenTrade, p: Prices)
    requires Priceable(fees, open, p) && p.realizedUsd.Some? && p.entryUmcPriceUsd.Some?
    ensures FairOf(fees, p, PassPrice(fees, open, p, 0)) == open.entryUmc
  {
    var x := open.entryUmc * fees.umcContractMultiplier;
    assert x / p.usdTwd * p.usdTwd == x;
    assert x / fees.umcContractMultiplier == open.entryUmc;
  }

  /** The exit fee in USD is the rate on the notional at the guessed price. */
  lemma FeeAtPrice(fees: FeeConfig, open: OpenTrade, p: Prices, priceUsd: real)
    requires Priceable(fees, open, p)
    ensures CostsAt(fees, open, p, FairOf(fees, p, priceUsd)).umcFeeTwd / p.usdTwd
         == Mul(open.position.umcUnits, Mul(Slope(fees, open), priceUsd))
  {
    FairOfPrice(fees, p, priceUsd);
    hide RoundHalfUpNonNegative, FairOf, UmcContractTwdPrice;
    var (units, bps) := (open.position.umcUnits, fees.umcFeeBps);
    assert CostsAt(fees, open, p, FairOf(fees, p, priceUsd)).umcFeeTwd
        == Abs(units) * (priceUsd * p.usdTwd) * bps / 10000.0;
    RateOnNotional(Abs(units), priceUsd, p.usdTwd, bps);
    if units < 0.0 {
      TwiceNegated(-units, bps / 10000.0, priceUsd);
    }
  }

  lemma RateOnNotional(size: real, price: real, rate: real, bps: real)
    requires rate > 0.0
    ensures size * (price * rate) * bps / 10000.0 / rate == size * ((bps / 10000.0) * price)
  {
    var notional := size * price * (bps / 10000.0);
    assert size * (price * rate) * bps / 10000.0 == notional * rate;
  }

  lemma TwiceNegated(x: real, y: real, z: real)
    ensures x * (y * z) == (-x) * ((-y) * z)
  {
  }

  /** The unexplained part, its products named. */
  lemma UnexplainedAt(fees: FeeConfig, open: OpenTrade, p: Prices, priceUsd: real)
    requires Priceable(fees, open, p) && p.realizedUsd.Some? && p.entryUmcPriceUsd.Some?
    ensures Unexplained(fees, open, p, priceUsd)
         == p.realizedUsd.value + open.costs.umcFeeTwd / p.usdTwd
            - Mul(open.position.umcUnits, priceUsd - p.entryUmcPriceUsd.value)
            + Mul(open.position.umcUnits, Mul(Slope(fees, open), priceUsd))
  {
    FeeAtPrice(fees, open, p, priceUsd);
    hide CostsAt, FairOf, Slope;
  }

  /** The gap a pass closes is what its starting price left unexplained. */
  lemma PassCloses(fees: FeeConfig, open: OpenTrade, p: Prices, passes: nat)
    requires Priceable(fees, open, p) && p.realizedUsd.Some? && p.entryUmcPriceUsd.Some?
    ensures Unexplained(fees, open, p, PassPrice(fees, open, p, passes))
         == Mul(open.position.umcUnits, PassPrice(fees, open, p, passes + 1) - PassPrice(fees, open, p, passes))
  {
    var (units, start) := (open.position.umcUnits, PassPrice(fees, open, p, passes));
    if passes == 0 {
      FairOfEntry(fees, open, p);
    }
    hide CostsAt, FairOf;
    var x := p.realizedUsd.value + open.costs.umcFeeTwd / p.usdTwd
             + CostsAt(fees, open, p, FairOf(fees, p, start)).umcFeeTwd / p.usdTwd;
    assert PassPrice(fees, open, p, passes + 1) == p.entryUmcPriceUsd.value + x / units;
    SharesOf(x, units);
    hide PassPrice, ImpliedPrice;
    assert units * (p.entryUmcPriceUsd.value + x / units - start)
        == x - units * (start - p.entryUmcPriceUsd.value);
  }

  /** One more pass leaves unexplained the fee rate's share of what there was. */
  lemma PassShrinks(fees: FeeConfig, open: OpenTrade, p: Prices, passes: nat)
    requires Priceable(fees, open, p) && p.realizedUsd.Some? && p.entryUmcPriceUsd.Some?
    ensures Unexplained(fees, open, p, PassPrice(fees, open, p, passes + 1))
         == Mul(Slope(fees, open), Unexplained(fees, open, p, PassPrice(fees, open, p, passes)))
  {
    hide PassPrice, Slope, Unexplained, Mul;
    var (start, reached) := (PassPrice(fees, open, p, passes), PassPrice(fees, open, p, passes + 1));
    PassCloses(fees, open, p, passes);
    UnexplainedAt(fees, open, p, start);
    UnexplainedAt(fees, open, p, reached);
    SlopeOfGap(open.position.umcUnits, Slope(fees, open), start, reached, p.entryUmcPriceUsd.value,
               p.realizedUsd.value + open.costs.umcFeeTwd / p.usdTwd);
  }

  /** If a price explains everything at the fee of the one before, its own fee is off by the slope of the step. */
  lemma SlopeOfGap(units: real, slope: real, start: real, reached: real, entry: real, figure: real)
    requires figure - Mul(units, start - entry) + Mul(units, Mul(slope, start)) == Mul(units, reached - start)
    ensures figure - Mul(units, reached - entry) + Mul(units, Mul(slope, reached))
         == Mul(slope, Mul(units, reached - start))
  {
    MulSwaps(units, slope, reached - start);
    MulSubtractsRight(slope, reached, start);
    MulSubtractsRight(units, Mul(slope, reached), Mul(slope, start));
    MulSubtractsRight(units, reached - entry, start - entry);
    assert reached - entry - (start - entry) == reached - start;
    hide Mul;
  }

  lemma MulSwaps(x: real, y: real, z: real)
    ensures Mul(x, Mul(y, z)) == Mul(y, Mul(x, z))
  {
  }

  lemma MulSubtractsRight(x: real, y: real, z: real)
    ensures Mul(x, y - z) == Mul(x, y) - Mul(x, z)
  {
  }

  /** n passes leave unexplained the n-th power of the fee rate of what the entry's price left. */
  lemma {:induction false} PassesConverge(fees: FeeConfig, open: OpenTrade, p: Prices, passes: nat)
    requires Priceable(fees, open, p) && p.realizedUsd.Some? && p.entryUmcPriceUsd.Some?
    ensures Unexplained(fees, open, p, PassPrice(fees, open, p, passes))
         == Power(Slope(fees, open), passes) * Unexplained(fees, open, p, PassPrice(fees, open, p, 0))
  {
    hide PassPrice, Unexplained, Slope;
    if passes > 0 {
      PassesConverge(fees, open, p, passes - 1);
      PassShrinks(fees, open, p, passes - 1);
    }
  }

  /**
   The second pass repeats the first, and the implied price explains the broker's figure exactly, just when no fee is
   charged on notional or the entry's price already explained it.
   */
  lemma FirstPassSufficesExactlyWhen(fees: FeeConfig, open: OpenTrade, p: Prices)
    requires Priceable(fees, open, p) && p.realizedUsd.Some? && p.entryUmcPriceUsd.Some?
    ensures var start := Unexplained(fees, open, p, PassPrice(fees, open, p, 0));
            && Unexplained(fees, open, p, Implied(fees, open, p).value)
               == Mul(fees.umcFeeBps / 10000.0, Mul(fees.umcFeeBps / 10000.0, start))
            && (Implied(fees, open, p).value == ImpliedPrice(fees, open, p, 1)
                <==> fees.umcFeeBps == 0.0 || start == 0.0)
            && (Unexplained(fees, open, p, Implied(fees, open, p).value) == 0.0
                <==> fees.umcFeeBps == 0.0 || start == 0.0)
  {
    var (units, rate) := (open.position.umcUnits, fees.umcFeeBps / 10000.0);
    var start := Unexplained(fees, open, p, PassPrice(fees, open, p, 0));
    assert PassPrice(fees, open, p, 2) == Implied(fees, open, p).value by { hide ImpliedPrice; }
    assert PassPrice(fees, open, p, 1) == ImpliedPrice(fees, open, p, 1) by { hide ImpliedPrice; }
    hide PassPrice, Unexplained, ImpliedPrice, Implied, Mul;
    PassShrinks(fees, open, p, 0);
    PassShrinks(fees, open, p, 1);
    PassCloses(fees, open, p, 1);
    SignSquares(rate, start);
    ZeroProducts(rate, start);
    ZeroProducts(-rate, start);
    ZeroProducts(rate, Mul(rate, start));
    ZeroProducts(units, PassPrice(fees, open, p, 2) - PassPrice(fees, open, p, 1));
  }

  lemma SignSquares(x: real, y: real)
    ensures Mul(-x, Mul(-x, y)) == Mul(x, Mul(x, y))
  {
  }

  lemma ZeroProducts(x: real, y: real)
    ensures Mul(x, y) == 0.0 <==> x == 0.0 || y == 0.0
  {
    if x != 0.0 {
      assert (x * y) / x == y;
    }
  }

  /**
   A hundred ADRs entered at 8 USD, closed by hand for 100 USD at the default rate: the second pass moves the price.
   */
  lemma FirstPassMisses(open: OpenTrade)
    ensures var fees := FeeConfig(5.0, 2.5, 100.0, 20.0, 0.0);
            var held := open.(position := Position(100.0, -100.0, -1, 0.0), entryUmc := 48.0,
                              costs := Costs(0.0, 0.0, 0.0, 0.0));
            var p := Prices(30.0, 40.0, 40.0, Some(8.0), Some(100.0), None, 0.01);
            && Priceable(fees, held, p)
            && Implied(fees, held, p).value != ImpliedPrice(fees, held, p, 1)
            && Unexplained(fees, held, p, Implied(fees, held, p).value) != 0.0
  {
    var fees := FeeConfig(5.0, 2.5, 100.0, 20.0, 0.0);
    var held := open.(position := Position(100.0, -100.0, -1, 0.0), entryUmc := 48.0,
                      costs := Costs(0.0, 0.0, 0.0, 0.0));
    var p := Prices(30.0, 40.0, 40.0, Some(8.0), Some(100.0), None, 0.01);
    assert PassPrice(fees, held, p, 0) == 8.0;
    UnexplainedAt(fees, held, p, 8.0);
    FirstPassSufficesExactlyWhen(fees, held, p);
  }
}
