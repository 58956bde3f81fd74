/** Which waiting manual closes can still be settled, and the lives in which one no longer can. */
module StrandedCloses {
  import opened Models
  import opened Sizing
  import opened StrategyModel
  import opened StrategyLaws
  import opened StateJson
  import opened Store
  import opened Reconciliation
  import opened RecoveryModel
  import opened RecoveryLaws
  import opened StoreLife
  import LiveExecution

  // ---------------------------------------------------------------- lives in pieces

  /** A life whose acts are all possible and whose recoveries come ever later. */
  ghost predicate Livable(site: Site, setup: Setup, t: Tables, acts: seq<Act>) {
    AllPossible(site, setup, t, acts) && ClocksAhead(site, setup, t, acts)
  }

  lemma {:induction false} LifeConcat(site: Site, setup: Setup, t: Tables, a: seq<Act>, b: seq<Act>)
    requires Livable(site, setup, t, a) && Livable(site, setup, Life(site, setup, t, a), b)
    ensures Livable(site, setup, t, a + b)
    ensures Life(site, setup, t, a + b) == Life(site, setup, Life(site, setup, t, a), b)
    decreases |a|
  {
    hide Possible, Happened, OriginalsHeld, ClockAhead;
    if a == [] {
      assert a + b == b;
    } else {
      assert (a + b)[1..] == a[1..] + b && (a + b)[0] == a[0];
      LifeConcat(site, setup, Happened(site, setup, t, a[0]), a[1..], b);
    }
  }

  lemma OneActLife(site: Site, setup: Setup, t: Tables, act: Act)
    requires OriginalsHeld(t) && Possible(site, setup, t, act) && ClockAhead(t, act)
    ensures Livable(site, setup, t, [act]) && Life(site, setup, t, [act]) == Happened(site, setup, t, act)
  {
    hide Possible, Happened, OriginalsHeld, ClockAhead;
    var next := Happened(site, setup, t, act);
    assert [act][1..] == [];
    assert Livable(site, setup, next, []) && Life(site, setup, next, []) == next;
    assert AllPossible(site, setup, t, [act]);
  }

  // ---------------------------------------------------------------- what can be settled

  /** Prices for a settlement at an exit price the operator knows, with no broker figure to reconcile. */
  const KNOWN_EXIT := Prices(1.0, 1.0, 1.0, None, None, Some(1.0), 0.0)

  const SETTLE := SettleRequest(false, false, KNOWN_EXIT, true, "priced by hand", 0)

  /** Multipliers and rates the configuration loader accepts. */
  predicate FeesUsable(fees: FeeConfig) {
    fees.umcContractMultiplier > 0.0 && fees.ccfContractMultiplier > 0.0 && fees.ccfTaxRate >= 0.0
  }

  /** This life books a trade for the close. */
  ghost predicate Settles(site: Site, setup: Setup, t: Tables, q: PendingClose, acts: seq<Act>) {
    Livable(site, setup, t, acts) && SettledRows(Life(site, setup, t, acts).trades, q.recovery) > 0
  }

  ghost predicate CanSettle(site: Site, setup: Setup, t: Tables, q: PendingClose) {
    exists acts :: Settles(site, setup, t, q, acts)
  }

  /** A waiting close that is not stranded is the newest, and its PnL is pending. */
  lemma NotStrandedIsNewest(site: Site, setup: Setup, t: Tables, q: PendingClose)
    requires SoundStore(site, setup, t) && q in t.pendings && q.Waiting() && !Stranded(site, setup, t, q)
    ensures LatestWaiting(t.pendings) == Some(q) && Current(site, setup, t).pnlStatus == Pending
  {
    hide LoadedState, StateSound, KeysOwned, OriginalsHeld, SettledMatch;
    var p := LatestWaiting(t.pendings).value;
    var i :| 0 <= i < |t.pendings| && t.pendings[i] == q;
    var j :| 0 <= j < |t.pendings| && t.pendings[j] == p;
    assert !(i < j) && !(j < i);
  }

  lemma KnownExitAgrees(site: Site, t: Tables)
    requires OriginalsHeld(t) && PricesUsable(site.fees, KNOWN_EXIT) && LatestWaiting(t.pendings).Some?
    ensures Settleable(site, t, SETTLE)
  {
    hide LatestWaiting, CostsAt, FairOf, ModelUmcPnl;
    WaitingIsPriceable(site, t, KNOWN_EXIT);
  }

  lemma SettlesKnownExit(site: Site, setup: Setup, t: Tables)
    requires IsIso(site.codec) && SoundStore(site, setup, t) && FeesUsable(site.fees)
    requires LatestWaiting(t.pendings).Some? && Current(site, setup, t).pnlStatus == Pending
    requires !HasPosition(Current(site, setup, t))
    ensures OriginalsHeld(t) && PricesUsable(site.fees, SETTLE.prices)
    ensures SettleManualClose(site, t, SETTLE).0 == BookedOnce
  {
    hide LoadedState, StateSound, ParkingSound, LatestWaiting, SettleManualClose, Settleable, OriginalsHeld,
         HasPosition;
    SoundIsWellFormed(site, setup, t);
    WaitingIsPriceable(site, t, KNOWN_EXIT);
    KnownExitAgrees(site, t);
    SettlesExactlyWhen(site, setup, t, SETTLE);
  }

  lemma SettleNow(site: Site, setup: Setup, t: Tables, q: PendingClose)
    requires IsIso(site.codec) && SoundStore(site, setup, t) && FeesUsable(site.fees)
    requires LatestWaiting(t.pendings) == Some(q) && Current(site, setup, t).pnlStatus == Pending
    requires !HasPosition(Current(site, setup, t))
    ensures Settles(site, setup, t, q, [SettledManually(SETTLE)])
  {
    hide LoadedState, SoundStore, LatestWaiting, BookSettlement, SettleManualClose, OriginalsHeld, HasPosition, Life;
    hide AllPossible, ClocksAhead, BuildSettlement, SettlePending;
    SettlesKnownExit(site, setup, t);
    WaitingIsPriceable(site, t, KNOWN_EXIT);
    BookedFacts(site, setup, t, SETTLE);
    OneActLife(site, setup, t, SettledManually(SETTLE));
    var after := SettleManualClose(site, t, SETTLE).1;
    assert Happened(site, setup, t, SettledManually(SETTLE)) == after;
    assert SettledRows(after.trades, q.recovery) > 0;
  }

  const QUIET := IndicatorSnapshot(0.0, None, None, None, false, true, true)

  function PlainBar(row: int): MarketBar {
    MarketBar(row, 60 * row, 1.0, 1.0, 0.0, None, None, true, true, false, "")
  }

  /** Leaving a position that is held in the way of a settlement. */
  const LEAVE := Ran(PaperForceExit(PlainBar(0), QUIET, OtherReason("make room")), [], [], [])

  lemma LeavingMakesRoom(site: Site, setup: Setup, t: Tables)
    requires IsIso(site.codec) && SoundStore(site, setup, t) && ValidConfig(setup.strategy, setup.fees)
    requires HasPosition(Current(site, setup, t))
    ensures OriginalsHeld(t) && Possible(site, setup, t, LEAVE)
    ensures var after := Happened(site, setup, t, LEAVE);
            && SoundStore(site, setup, after) && after.pendings == t.pendings
            && Current(site, setup, after).pnlStatus == Current(site, setup, t).pnlStatus
            && !HasPosition(Current(site, setup, after))
  {
    hide LoadedState, StateSound, ParkingSound, StrategyModel.ForceExit, ToJson, FromJson;
    SoundIsWellFormed(site, setup, t);
    var st := Current(site, setup, t);
    assert Holding(st);
    OneActSound(site, setup, t, LEAVE);
    RanKeepsPnlStatus(site, setup, t, LEAVE);
    ForceExitOk(setup, st, LEAVE.move.bar, LEAVE.move.snap, LEAVE.move.exitReason);
    RanLeaves(site, setup, t, LEAVE);
  }

  /** What a step of the strategy leaves in the store. */
  lemma RanLeaves(site: Site, setup: Setup, t: Tables, act: Act)
    requires IsIso(site.codec) && OriginalsHeld(t) && Possible(site, setup, t, act) && act.Ran?
    requires Moved(setup, Current(site, setup, t), act.move).Some?
    ensures var step, after := Moved(setup, Current(site, setup, t), act.move).value, Happened(site, setup, t, act);
            && LoadedState(site, after) == Some(step.state) && Current(site, setup, after) == step.state
            && after.saved.Some? && after.saved.value.rowIndex == act.move.Bar().rowIndex
            && after.pendings == t.pendings && after.adjustments == t.adjustments && after.fills == t.fills + act.fills
  {
    hide Moved, ToJson, FromJson, FreshState, OriginalsHeld, MoveReady;
    SaveLoads(site, t, act.move.Bar().rowIndex, act.move.Bar().timestamp,
              Moved(setup, Current(site, setup, t), act.move).value.state);
  }

  /**
   Which waiting closes can still be settled: exactly those that are not stranded. For any other some life settles it,
   at most a forced exit and one settlement long; for a stranded one no life does.
   */
  lemma SettleableExactlyWhen(site: Site, setup: Setup, t: Tables, q: PendingClose)
    requires IsIso(site.codec) && SoundStore(site, setup, t) && q in t.pendings && q.Waiting()
    requires FeesUsable(site.fees) && ValidConfig(setup.strategy, setup.fees)
    ensures CanSettle(site, setup, t, q) <==> !Stranded(site, setup, t, q)
  {
    if Stranded(site, setup, t, q) {
      forall acts | Livable(site, setup, t, acts)
        ensures !Settles(site, setup, t, q, acts)
      {
        StrandedForever(site, setup, t, q, acts);
      }
    } else {
      SettlingLife(site, setup, t, q);
    }
  }

  lemma SettlingLife(site: Site, setup: Setup, t: Tables, q: PendingClose)
    requires IsIso(site.codec) && SoundStore(site, setup, t) && q in t.pendings && q.Waiting()
    requires FeesUsable(site.fees) && ValidConfig(setup.strategy, setup.fees) && !Stranded(site, setup, t, q)
    ensures CanSettle(site, setup, t, q)
  {
    hide SoundStore, LoadedState, HasPosition, Happened, Possible, Life, AllPossible, ClocksAhead, OriginalsHeld,
         Current;
    NotStrandedIsNewest(site, setup, t, q);
    if HasPosition(Current(site, setup, t)) {
      LeavingMakesRoom(site, setup, t);
      OneActLife(site, setup, t, LEAVE);
      SettleNow(site, setup, Happened(site, setup, t, LEAVE), q);
      LifeConcat(site, setup, t, [LEAVE], [SettledManually(SETTLE)]);
      assert Settles(site, setup, t, q, [LEAVE] + [SettledManually(SETTLE)]);
    } else {
      SettleNow(site, setup, t, q);
    }
  }

  // ---------------------------------------------------------------- a round trip closed by hand

  /** A site whose digest tells rows apart and whose tolerances are sane, and a setup that trades fixed lots. */
  ghost predicate Ordinary(site: Site, setup: Setup) {
    && IsIso(site.codec) && TolerancesSane(site.tol) && FeesUsable(site.fees)
    && (forall a: int, b: int, u: real, v: real, m: int, n: int, c: string, d: string ::
          a != b ==> site.digest(a, u, m, c) != site.digest(b, v, n, d))
    && ValidConfig(setup.strategy, setup.fees) && setup.strategy.ccfLots.Some?
       && setup.strategy.maxEntryDelayMinutes >= 1
  }

  /** A number written as a sign and that many strokes. */
  function Strokes(n: int): string {
    [if n < 0 then '-' else '+'] + seq(AbsInt(n), _ => '1')
  }

  function ReadStrokes(s: Scalar): Option<int> {
    if s.Text? && s.text != "" then Some(if s.text[0] == '-' then 1 - |s.text| else |s.text| - 1) else None
  }

  function PlainSite(): Site {
    Site(Codec(Strokes, ReadStrokes), "UMC", "CCF", Tolerances(0.0, 0), FeeConfig(5.0, 2.5, 100.0, 20.0, 0.0),
         (row: int, umc: real, ccf: int, symbol: string) => Strokes(row))
  }

  function PlainSetup(): Setup {
    Setup(StrategyConfig(2.0, 0.0, 0.0, 0.0, 1, Some(1)), FeeConfig(5.0, 2.5, 100.0, 20.0, 0.0), "UMC")
  }

  /** There are such sites and setups. */
  lemma PlainIsOrdinary()
    ensures Ordinary(PlainSite(), PlainSetup())
  {
    forall t: int
      ensures Renders(PlainSite().codec, t)
    {
      assert |Strokes(t)| == AbsInt(t) + 1 && Strokes(t)[0] == if t < 0 then '-' else '+';
    }
    forall a: int, b: int | a != b
      ensures Strokes(a) != Strokes(b)
    {
      assert Strokes(a)[0] != Strokes(b)[0] || |Strokes(a)| != |Strokes(b)|;
    }
  }

  /** A score beyond the entry threshold. */
  function HighScore(setup: Setup): IndicatorSnapshot {
    IndicatorSnapshot(0.0, Some(0.0), Some(1.0), Some(setup.strategy.entryZ + 1.0), true, true, true)
  }

  const FLAT_BROKERS := [Fetched(Snapshot(FubonCcf, [], [])), Fetched(Snapshot(IbkrUmc, [], []))]

  function HandClose(now: int): Request {
    Request(false, FLAT_BROKERS, true, "closed by hand", now)
  }

  function Bars(setup: Setup, row: int): seq<Act> {
    [Ran(PaperBar(PlainBar(row), HighScore(setup)), [], [], []),
     Ran(PaperBar(PlainBar(row + 1), HighScore(setup)), [], [], [])]
  }

  /** Enter on two bars, find the position gone at the brokers, and record that it was closed by hand. */
  function Round(setup: Setup, row: int, now: int): seq<Act> {
    Bars(setup, row) + [PauseFound(row + 1, now)] + [Recovered(HandClose(now))]
  }

  /** What a flat strategy does on the two bars. */
  lemma TwoBarsOpen(setup: Setup, st: RuntimeState, row: int)
    requires ValidConfig(setup.strategy, setup.fees) && setup.strategy.ccfLots.Some?
    requires setup.strategy.maxEntryDelayMinutes >= 1
    requires WellFormed(st) && st.state == Flat
    ensures var signalled := StrategyModel.OnBar(setup, st, PlainBar(row), HighScore(setup)).state;
            && WellFormed(signalled) && signalled.state == EntryPending && signalled.contract == st.contract
            && var filled := StrategyModel.OnBar(setup, signalled, PlainBar(row + 1), HighScore(setup)).state;
               WellFormed(filled) && filled.state == Open && filled.contract == st.contract
  {
    var bar, next, snap := PlainBar(row), PlainBar(row + 1), HighScore(setup);
    OnBarOk(setup, st, bar, snap);
    SignalPends(setup, st, bar, snap);
    var signalled := StrategyModel.OnBar(setup, st, bar, snap).state;
    OnBarOk(setup, signalled, next, snap);
    PendingFills(setup, signalled, next, snap);
    hide StrategyModel.OnBar, WellFormed, StepOk;
    AssertStepOk(setup, bar, st, StrategyModel.OnBar(setup, st, bar, snap));
    AssertStepOk(setup, next, signalled, StrategyModel.OnBar(setup, signalled, next, snap));
  }

  lemma AssertStepOk(setup: Setup, bar: MarketBar, st: RuntimeState, step: Step)
    requires StepOk(setup, bar, st, step)
    ensures WellFormed(step.state)
  {
  }

  lemma SignalPends(setup: Setup, st: RuntimeState, bar: MarketBar, snap: IndicatorSnapshot)
    requires Usable(setup, bar) && st.state == Flat && snap == HighScore(setup)
    ensures var next := StrategyModel.OnBar(setup, st, bar, snap).state;
            && next.state == EntryPending && next.contract == st.contract
            && next.candidate == Candidate(Some(ShortUmcLongCcf), bar.rowIndex, Some(bar.timestamp), snap.zscore)
  {
    hide EntryAttempt, ExitAttempt;
  }

  lemma PendingFills(setup: Setup, st: RuntimeState, bar: MarketBar, snap: IndicatorSnapshot)
    requires Usable(setup, bar) && st.state == EntryPending && bar.entryAllowed && setup.strategy.ccfLots.Some?
    requires st.candidate.direction.Some? && st.candidate.time.Some?
    requires MinutesBetween(st.candidate.time.value, bar.timestamp) <= setup.strategy.maxEntryDelayMinutes
    ensures var next := StrategyModel.OnBar(setup, st, bar, snap).state;
            next.state == Open && next.contract == st.contract
  {
    hide FillCosts, EntryRequests, RawContracts;
    assert SizePositionForDirection(st.candidate.direction.value, OpenUmcPrice(bar), OpenCcfPrice(bar), setup.strategy,
                                    setup.fees).Some?;
  }

  /** After the two bars a flat store holds an open position saved at the second row, and nothing else moved. */
  lemma BarsOpen(site: Site, setup: Setup, t: Tables, row: int)
    requires Ordinary(site, setup) && SoundStore(site, setup, t) && Current(site, setup, t).state == Flat
    ensures Livable(site, setup, t, Bars(setup, row))
    ensures var after := Life(site, setup, t, Bars(setup, row));
            && SoundStore(site, setup, after) && LoadedState(site, after).Some?
            && Current(site, setup, after).state == Open
            && Current(site, setup, after).contract == Current(site, setup, t).contract
            && after.saved.Some? && after.saved.value.rowIndex == row + 1
            && after.pendings == t.pendings && after.adjustments == t.adjustments && after.fills == t.fills
  {
    hide LoadedState, StateSound, ParkingSound, StrategyModel.OnBar, Happened, OriginalsHeld, WellFormed, Life,
         AllPossible;
    hide ClocksAhead;
    var first, second := Bars(setup, row)[0], Bars(setup, row)[1];
    SoundIsWellFormed(site, setup, t);
    TwoBarsOpen(setup, Current(site, setup, t), row);
    OneActSound(site, setup, t, first);
    RanLeaves(site, setup, t, first);
    OneActLife(site, setup, t, first);
    var t1 := Happened(site, setup, t, first);
    SoundIsWellFormed(site, setup, t1);
    OneActSound(site, setup, t1, second);
    RanLeaves(site, setup, t1, second);
    OneActLife(site, setup, t1, second);
    LifeConcat(site, setup, t, [first], [second]);
    assert [first] + [second] == Bars(setup, row);
    assert t.fills + [] == t.fills && t1.fills + [] == t1.fills;
  }

  /** Pausing an open position keeps everything but its state. */
  lemma PauseHolds(site: Site, setup: Setup, t: Tables, row: int, now: int)
    requires IsIso(site.codec) && SoundStore(site, setup, t) && Current(site, setup, t).state == Open
    ensures OriginalsHeld(t)
    ensures var after := Happened(site, setup, t, PauseFound(row, now));
            && SoundStore(site, setup, after)
            && LoadedState(site, after) == Some(Current(site, setup, t).(state := Paused))
            && HasPosition(LoadedState(site, after).value)
            && after.saved.Some? && after.saved.value.rowIndex == row
            && after.pendings == t.pendings && after.adjustments == t.adjustments && after.fills == t.fills
  {
    hide LoadedState, StateSound, ParkingSound, ToJson, FromJson;
    SoundIsWellFormed(site, setup, t);
    OneActSound(site, setup, t, PauseFound(row, now));
    SaveLoads(site, t, row, now, Current(site, setup, t).(state := Paused));
  }

  /** Brokers that hold nothing match any cleared strategy. */
  lemma FlatBrokersMatch(site: Site, st: RuntimeState, ccfSymbol: string)
    requires TolerancesSane(site.tol)
    ensures BrokersFlat(site, st, ccfSymbol, FLAT_BROKERS)
  {
    var expected := ExpectedFromStrategy(site.tol, Some(ClearExposure(st)), site.umcSymbol, ccfSymbol);
    assert expected.umcUnits == 0.0 && expected.ccfContracts == 0;
    FlatBrokersQuiet(site.tol, expected);
  }

  lemma FlatBrokersQuiet(tol: Tolerances, expected: Expected)
    requires TolerancesSane(tol) && expected.umcUnits == 0.0 && expected.ccfContracts == 0
    ensures AllIssues(tol, FLAT_BROKERS, expected) == []
  {
    var ccf, umc := FLAT_BROKERS[0], FLAT_BROKERS[1];
    assert FLAT_BROKERS[..1] == [ccf] && [ccf][..0] == [];
    EmptySnapshotQuiet(tol, FubonCcf, expected);
    EmptySnapshotQuiet(tol, IbkrUmc, expected);
    assert AllIssues(tol, [ccf], expected) == [];
  }

  lemma EmptySnapshotQuiet(tol: Tolerances, broker: BrokerName, expected: Expected)
    requires TolerancesSane(tol) && expected.umcUnits == 0.0 && expected.ccfContracts == 0
    ensures SnapshotIssues(tol, Snapshot(broker, [], []), expected) == []
  {
    assert OrderIssues(broker, []) == [] && StrayIssues(broker, [], expected.Symbol(broker), tol.Of(broker)) == [];
    assert HeldOn([], expected.Symbol(broker)) == 0.0;
  }

  /** The two corrections a first recovery makes. */
  function Corrections(site: Site, t: Tables, recovery: string, ccfSymbol: string): seq<Adjustment> {
    [Adjustment(recovery, IbkrUmc, site.umcSymbol, -Residual(site, t, IbkrUmc, ccfSymbol)),
     Adjustment(recovery, FubonCcf, ccfSymbol, -Residual(site, t, FubonCcf, ccfSymbol))]
  }

  lemma AppliedWrites(site: Site, t: Tables, st: RuntimeState, ccfSymbol: string, req: Request)
    requires t.saved.Some? && Apply(site, t, st, ccfSymbol, req).0 == Applied
    ensures var after := Apply(site, t, st, ccfSymbol, req).1;
            var recovery := site.digest(t.saved.value.rowIndex, st.position.umcUnits, st.position.ccfContracts,
                                        ccfSymbol);
            && |after.pendings| == |t.pendings| + 1 && after.pendings[|t.pendings|].recovery == recovery
            && after.saved.Some? && after.saved.value.rowIndex == t.saved.value.rowIndex && after.fills == t.fills
            && after.adjustments == t.adjustments + Corrections(site, t, recovery, ccfSymbol)
  {
    hide Residual, ToJson, HasKey;
  }

  lemma HandCloseIsApply(site: Site, t: Tables, now: int)
    requires TolerancesSane(site.tol) && t.saved.Some? && LoadedState(site, t).Some?
    requires var st := LoadedState(site, t).value; st.state == Paused && HasPosition(st) && st.direction.Some?
    ensures var st := LoadedState(site, t).value;
            RecoverManualFlat(site, t, HandClose(now))
            == Apply(site, t, st, TradingSymbol(st, site.ccfSymbol), HandClose(now))
  {
    var st := LoadedState(site, t).value;
    FlatBrokersMatch(site, st, TradingSymbol(st, site.ccfSymbol));
    hide LoadedState, BrokersFlat, LatestWaiting, Residual, HasPosition, Apply, Repair;
  }

  /** No recovery on record was parked on this row. */
  ghost predicate RowIsNew(site: Site, t: Tables, row: int) {
    forall p, u: real, m: int, c: string :: p in t.pendings ==> p.recovery != site.digest(row, u, m, c)
  }

  ghost predicate NamedFor(site: Site, recovery: string, row: int) {
    exists u: real, m: int, c: string :: recovery == site.digest(row, u, m, c)
  }

  /** A hand close was recorded on a row: the position is parked, the books squared, the strategy cleared. */
  ghost predicate HandClosed(site: Site, t: Tables, after: Tables, row: int, now: int) {
    && LoadedState(site, t).Some? && LoadedState(site, after).Some? && |after.pendings| == |t.pendings| + 1
    && after.fills == t.fills && after.saved.Some?
    && var st, cleared, parked := LoadedState(site, t).value, LoadedState(site, after).value,
    after.pendings[|t.pendings|];
       && after.pendings == t.pendings + [parked] && parked.Waiting() && parked.createdAt == now
       && NamedFor(site, parked.recovery, row)
       && cleared.state == Paused && !HasPosition(cleared) && cleared.pnlStatus == Pending
          && cleared.contract == st.contract
       && after.adjustments
          == t.adjustments + Corrections(site, t, parked.recovery, TradingSymbol(st, site.ccfSymbol))
  }

  /** Recording a hand close of a paused position always works while its row is new. */
  lemma HandCloseApplies(site: Site, t: Tables, now: int)
    requires IsIso(site.codec) && TolerancesSane(site.tol) && KeysOwned(t) && t.saved.Some?
             && LoadedState(site, t).Some?
    requires var st := LoadedState(site, t).value; st.state == Paused && HasPosition(st) && st.direction.Some?
    requires RowIsNew(site, t, t.saved.value.rowIndex)
    ensures RecoverManualFlat(site, t, HandClose(now)).0 == Applied
    ensures HandClosed(site, t, RecoverManualFlat(site, t, HandClose(now)).1, t.saved.value.rowIndex, now)
  {
    hide LoadedState, HasPosition, Apply, KeysOwned, Corrections, RecoverManualFlat;
    var st := LoadedState(site, t).value;
    var ccfSymbol := TradingSymbol(st, site.ccfSymbol);
    HandCloseIsApply(site, t, now);
    ApplyRefusedExactlyWhen(site, t, st, ccfSymbol, HandClose(now));
    AppliedFacts(site, t, HandClose(now));
    AppliedWrites(site, t, st, ccfSymbol, HandClose(now));
    ClearedHoldsNothing(st);
  }

  lemma ClearedHoldsNothing(st: RuntimeState)
    ensures !HasPosition(ClearExposure(st).(pnlStatus := Pending))
    ensures ClearExposure(st).(pnlStatus := Pending).contract == st.contract
  {
  }

  /** A round from a flat store ends in a hand close of the position it opened. */
  lemma RoundParks(site: Site, setup: Setup, t: Tables, row: int, now: int) returns (paused: Tables)
    requires Ordinary(site, setup) && SoundStore(site, setup, t) && Current(site, setup, t).state == Flat
    requires RowIsNew(site, t, row + 1) && forall p :: p in t.pendings ==> p.createdAt < now
    ensures Livable(site, setup, t, Round(setup, row, now))
    ensures SoundStore(site, setup, Life(site, setup, t, Round(setup, row, now)))
    ensures SoundStore(site, setup, paused) && LoadedState(site, paused).Some?
    ensures paused.pendings == t.pendings && paused.adjustments == t.adjustments && paused.fills == t.fills
    ensures LoadedState(site, paused).value.contract == Current(site, setup, t).contract
    ensures RecoverManualFlat(site, paused, HandClose(now)) == (Applied, Life(site, setup, t, Round(setup, row, now)))
    ensures HandClosed(site, paused, Life(site, setup, t, Round(setup, row, now)), row + 1, now)
  {
    hide LoadedState, StateSound, ParkingSound, Happened, OriginalsHeld, WellFormed, Life, AllPossible, ClocksAhead,
         HasPosition;
    hide Bars, RecoverManualFlat, HandClosed;
    BarsOpen(site, setup, t, row);
    var t1 := Life(site, setup, t, Bars(setup, row));
    PauseHolds(site, setup, t1, row + 1, now);
    OneActLife(site, setup, t1, PauseFound(row + 1, now));
    paused := Happened(site, setup, t1, PauseFound(row + 1, now));
    LifeConcat(site, setup, t, Bars(setup, row), [PauseFound(row + 1, now)]);
    PausedFacts(site, setup, paused);
    HandCloseApplies(site, paused, now);
    OneActSound(site, setup, paused, Recovered(HandClose(now)));
    OneActLife(site, setup, paused, Recovered(HandClose(now)));
    LifeConcat(site, setup, t, Bars(setup, row) + [PauseFound(row + 1, now)], [Recovered(HandClose(now))]);
    RecoveredIs(site, setup, paused, now);
  }

  lemma PausedFacts(site: Site, setup: Setup, t: Tables)
    requires SoundStore(site, setup, t) && LoadedState(site, t).Some?
    requires LoadedState(site, t).value.state == Paused && HasPosition(LoadedState(site, t).value)
    ensures KeysOwned(t) && OriginalsHeld(t) && LoadedState(site, t).value.direction.Some?
  {
    hide LoadedState;
  }

  lemma RecoveredIs(site: Site, setup: Setup, t: Tables, now: int)
    requires OriginalsHeld(t)
    ensures Happened(site, setup, t, Recovered(HandClose(now))) == RecoverManualFlat(site, t, HandClose(now)).1
  {
  }

  // ---------------------------------------------------------------- the life that strands a close

  /** A round closed by hand, and the pause lifted: flat again, with the close still waiting for its price. */
  function FirstLife(setup: Setup): seq<Act> {
    Round(setup, 0, 1) + [PauseCleared(FLAT_BROKERS, 2)]
  }

  lemma LoadedIsSaved(site: Site, t: Tables)
    requires LoadedState(site, t).Some?
    ensures t.saved.Some?
  {
  }

  /** Lifting the pause changes the state and nothing else that matters here. */
  lemma ClearedStore(site: Site, setup: Setup, t: Tables, fetches: seq<Fetch>, now: int)
    requires IsIso(site.codec) && SoundStore(site, setup, t) && ClearPause(site, t, fetches, now).0 == Cleared(Flat)
    ensures OriginalsHeld(t) && LoadedState(site, t).Some?
    ensures var after := Happened(site, setup, t, PauseCleared(fetches, now));
            && SoundStore(site, setup, after)
            && LoadedState(site, after) == Some(LoadedState(site, t).value.(state := Flat))
            && after.saved.Some? && after.pendings == t.pendings && after.adjustments == t.adjustments
               && after.fills == t.fills
  {
    hide LoadedState, StateSound, ParkingSound, ToJson, FromJson, ClearStatus;
    SoundIsWellFormed(site, setup, t);
    OneActSound(site, setup, t, PauseCleared(fetches, now));
    LoadedIsSaved(site, t);
    var row := t.saved.value.rowIndex;
    SaveLoads(site, t.(events := t.events + [EventRow(row, now, "clear_pause", "")]), row, now,
              LoadedState(site, t).value.(state := Flat));
  }

  /** What the first life leaves behind an empty store. */
  lemma FirstLifeWaits(site: Site, setup: Setup) returns (t: Tables, first: PendingClose)
    requires Ordinary(site, setup)
    ensures Livable(site, setup, EMPTY, FirstLife(setup)) && t == Life(site, setup, EMPTY, FirstLife(setup))
    ensures SoundStore(site, setup, t) && LoadedState(site, t).Some?
    ensures var st := Current(site, setup, t);
            st.state == Flat && st.contract == NO_CONTRACT && st.pnlStatus == Pending && !HasPosition(st)
    ensures t.pendings == [first] && first.Waiting() && first.createdAt == 1 && NamedFor(site, first.recovery, 1)
    ensures t.fills == [] && |t.adjustments| == 2
    ensures forall i :: 0 <= i < 2 ==> t.adjustments[i].recovery == first.recovery
    ensures t.adjustments[0].broker == IbkrUmc && t.adjustments[0].symbol == site.umcSymbol
    ensures t.adjustments[1].broker == FubonCcf && t.adjustments[1].symbol == site.ccfSymbol
  {
    hide LoadedState, SoundStore, Happened, OriginalsHeld, Life, AllPossible, ClocksAhead, HasPosition, Residual,
         RecoverManualFlat;
    hide ClearPause;
    EmptyStoreSound(site, setup);
    EmptyIsFresh(site, setup);
    var paused := RoundParks(site, setup, EMPTY, 0, 1);
    var parked := Life(site, setup, EMPTY, Round(setup, 0, 1));
    RecoveryUnblocks(site, paused, HandClose(1), 2);
    ClearedStore(site, setup, parked, FLAT_BROKERS, 2);
    OneActLife(site, setup, parked, PauseCleared(FLAT_BROKERS, 2));
    LifeConcat(site, setup, EMPTY, Round(setup, 0, 1), [PauseCleared(FLAT_BROKERS, 2)]);
    t := Happened(site, setup, parked, PauseCleared(FLAT_BROKERS, 2));
    first := parked.pendings[0];
    FlatHoldsNothing(LoadedState(site, parked).value);
  }

  lemma EmptyIsFresh(site: Site, setup: Setup)
    ensures Current(site, setup, EMPTY) == FreshState(setup.strategy)
  {
  }

  lemma FlatHoldsNothing(st: RuntimeState)
    ensures HasPosition(st.(state := Flat)) == HasPosition(st)
  {
  }

  /** The whole life: a second round closed by hand while the first close waits, and then one settlement. */
  function StrandingLife(setup: Setup): seq<Act> {
    FirstLife(setup) + Round(setup, 2, 3) + [SettledManually(SETTLE)]
  }

  /**
   The life this happens in, from an empty store, wherever fixed lots are traded and recoveries of different rows have
   different names: two round trips closed by hand, the pause lifted in between, one settlement. The settlement books
   the second close, and the first can never be settled again.
   */
  lemma StrandingHappens(site: Site, setup: Setup) returns (first: PendingClose)
    requires Ordinary(site, setup)
    ensures Livable(site, setup, EMPTY, StrandingLife(setup))
    ensures var end := Life(site, setup, EMPTY, StrandingLife(setup));
            && SoundStore(site, setup, end) && first in end.pendings && first.Waiting()
            && Current(site, setup, end).pnlStatus == Complete
            && Stranded(site, setup, end, first) && !CanSettle(site, setup, end, first)
  {
    hide LoadedState, SoundStore, Happened, OriginalsHeld, Life, AllPossible, ClocksAhead, HasPosition,
         RecoverManualFlat;
    hide ClearPause, SettleManualClose, Stranded, FirstLife, Round, Corrections;
    var waiting;
    waiting, first := FirstLifeWaits(site, setup);
    OtherRowIsNew(site, setup, waiting, first);
    var paused := RoundParks(site, setup, waiting, 2, 3);
    var both := Life(site, setup, waiting, Round(setup, 2, 3));
    LifeConcat(site, setup, EMPTY, FirstLife(setup), Round(setup, 2, 3));
    ParkingStrands(site, setup, paused, HandClose(3), first);
    var newest := both.pendings[1];
    NewestWaits([first], newest);
    SettlesKnownExit(site, setup, both);
    SettlingStrands(site, setup, both, SETTLE, first);
    OneActLife(site, setup, both, SettledManually(SETTLE));
    SettledIs(site, setup, both);
    LifeConcat(site, setup, EMPTY, FirstLife(setup) + Round(setup, 2, 3), [SettledManually(SETTLE)]);
    WaitingIsPriceable(site, both, KNOWN_EXIT);
    StrandedStillWaits(site, setup, SettleManualClose(site, both, SETTLE).1, first);
    SettleableExactlyWhen(site, setup, SettleManualClose(site, both, SETTLE).1, first);
  }

  lemma OtherRowIsNew(site: Site, setup: Setup, t: Tables, first: PendingClose)
    requires Ordinary(site, setup) && t.pendings == [first] && NamedFor(site, first.recovery, 1)
    ensures RowIsNew(site, t, 3)
  {
  }

  lemma SettledIs(site: Site, setup: Setup, t: Tables)
    requires OriginalsHeld(t) && PricesUsable(site.fees, SETTLE.prices)
    ensures Happened(site, setup, t, SettledManually(SETTLE)) == SettleManualClose(site, t, SETTLE).1
  {
  }

  lemma StrandedStillWaits(site: Site, setup: Setup, t: Tables, q: PendingClose)
    requires Stranded(site, setup, t, q)
    ensures q in t.pendings && q.Waiting()
  {
  }

  // ---------------------------------------------------------------- the roll that refuses a repair

  /** A fill of one lot that arrives late, under the new contract's symbol. */
  function Straggler(symbol: string): Fill {
    Fill(Venue("late"), Venue("late"), FubonCcf, symbol, Buy, 1.0, 1.0, 0.0, 120, 2)
  }

  function Rolled(symbol: string): ContractFields {
    NO_CONTRACT.(tradingSymbol := Some(symbol))
  }

  /** A hand close under one contract, the roll to another, and a late fill recorded under the new one. */
  function RollLife(setup: Setup, symbol: string): seq<Act> {
    FirstLife(setup) + [ContractSwitched(Rolled(symbol), 1, 2)]
    + [Ran(PaperBar(PlainBar(2), QUIET), [], [Straggler(symbol)], [])]
  }

  lemma QuietBarIdle(setup: Setup, st: RuntimeState, bar: MarketBar)
    requires Usable(setup, bar) && WellFormed(st) && st.state == Flat
    ensures var next := StrategyModel.OnBar(setup, st, bar, QUIET).state;
            next == st.(runningMaxEquity := next.runningMaxEquity)
  {
    hide EntryAttempt, ExitAttempt;
  }

  lemma RollStore(site: Site, setup: Setup, symbol: string) returns (t: Tables, first: PendingClose)
    requires Ordinary(site, setup)
    ensures Livable(site, setup, EMPTY, RollLife(setup, symbol))
            && t == Life(site, setup, EMPTY, RollLife(setup, symbol))
    ensures SoundStore(site, setup, t) && LoadedState(site, t).Some? && t.saved.Some?
    ensures var st := LoadedState(site, t).value; st.contract == Rolled(symbol) && !HasPosition(st)
    ensures t.pendings == [first] && first.Waiting() && t.fills == [Straggler(symbol)] && |t.adjustments| == 2
    ensures t.adjustments[0].recovery == t.adjustments[1].recovery == first.recovery
    ensures t.adjustments[0].broker == IbkrUmc && t.adjustments[0].symbol == site.umcSymbol
    ensures t.adjustments[1].broker == FubonCcf && t.adjustments[1].symbol == site.ccfSymbol
  {
    hide LoadedState, StateSound, ParkingSound, OriginalsHeld, Life, AllPossible, ClocksAhead, HasPosition, FirstLife;
    hide StrategyModel.OnBar, ToJson, FromJson, WellFormed;
    var before;
    before, first := FirstLifeWaits(site, setup);
    var st := Current(site, setup, before);
    SoundIsWellFormed(site, setup, before);
    var switch := ContractSwitched(Rolled(symbol), 1, 2);
    OneActSound(site, setup, before, switch);
    SaveLoads(site, before, 1, 2, LiveExecution.Switched(st, Rolled(symbol)));
    OneActLife(site, setup, before, switch);
    LifeConcat(site, setup, EMPTY, FirstLife(setup), [switch]);
    var rolled := Happened(site, setup, before, switch);
    SoundIsWellFormed(site, setup, rolled);
    var late := Ran(PaperBar(PlainBar(2), QUIET), [], [Straggler(symbol)], []);
    OneActSound(site, setup, rolled, late);
    RanLeaves(site, setup, rolled, late);
    OneActLife(site, setup, rolled, late);
    LifeConcat(site, setup, EMPTY, FirstLife(setup) + [switch], [late]);
    t := Happened(site, setup, rolled, late);
    QuietBarIdle(setup, Current(site, setup, rolled), PlainBar(2));
    FlatSwitchHolds(st, Rolled(symbol), LoadedState(site, t).value);
  }

  lemma FlatSwitchHolds(st: RuntimeState, contract: ContractFields, next: RuntimeState)
    requires !HasPosition(st)
    requires next.position == st.position && next.direction == st.direction
    ensures !HasPosition(next)
  {
  }

  /**
   A repair the row key refuses, from an empty store: a position closed by hand under one contract, the roll to another,
   one late fill under the new symbol. The brokers are flat, the ledger is one lot off, and the repair cannot be
   recorded.
   */
  lemma RollRefusesRepair(site: Site, setup: Setup, symbol: string)
    requires Ordinary(site, setup) && symbol != "" && symbol != site.ccfSymbol
    ensures Livable(site, setup, EMPTY, RollLife(setup, symbol))
    ensures var t := Life(site, setup, EMPTY, RollLife(setup, symbol));
            RecoverManualFlat(site, t, HandClose(3)) == (KeyConflict, t)
  {
    hide SoundStore, LoadedState, Life, AllPossible, ClocksAhead, HasPosition, RecoverManualFlat, Residual, RollLife;
    var t, first := RollStore(site, setup, symbol);
    assert KeysOwned(t) by { SoundKeysOwned(site, setup, t); }
    OneLotOff(site, t, symbol);
    assert !SameSymbol(t, first.recovery, FubonCcf, symbol);
    hide KeysOwned, SameSymbol;
    RepairRefusedExactlyWhen(site, t, first.recovery, symbol, HandClose(3));
    FlatBrokersMatch(site, LoadedState(site, t).value, symbol);
    RepairReached(site, t, first, symbol);
  }

  lemma SoundKeysOwned(site: Site, setup: Setup, t: Tables)
    requires SoundStore(site, setup, t)
    ensures KeysOwned(t)
  {
  }

  lemma OneFillCounts(symbol: string)
    ensures SignedQuantity([Straggler(symbol)], FubonCcf, symbol) == 1.0
  {
    assert [Straggler(symbol)][1..] == [];
  }

  lemma OneLotOff(site: Site, t: Tables, symbol: string)
    requires t.fills == [Straggler(symbol)] && |t.adjustments| == 2 && symbol != site.ccfSymbol
    requires t.adjustments[0].broker == IbkrUmc
    requires t.adjustments[1].broker == FubonCcf && t.adjustments[1].symbol == site.ccfSymbol
    ensures Residual(site, t, FubonCcf, symbol) == 1.0
  {
    OneFillCounts(symbol);
    assert t.adjustments == [t.adjustments[0]] + [t.adjustments[1]];
    AdjustmentTotalConcat([t.adjustments[0]], [t.adjustments[1]], FubonCcf, symbol);
    OneAdjustment(t.adjustments[0], FubonCcf, symbol);
    OneAdjustment(t.adjustments[1], FubonCcf, symbol);
  }

  lemma RepairReached(site: Site, t: Tables, first: PendingClose, symbol: string)
    requires LoadedState(site, t).Some? && t.saved.Some? && t.pendings == [first] && first.Waiting() && symbol != ""
    requires var st := LoadedState(site, t).value;
             st.contract == Rolled(symbol) && !HasPosition(st) && BrokersFlat(site, st, symbol, FLAT_BROKERS)
    requires Residual(site, t, FubonCcf, symbol) == 1.0
    requires Repair(site, t, first.recovery, symbol, HandClose(3)).0 == KeyConflict
    ensures RecoverManualFlat(site, t, HandClose(3)) == (KeyConflict, t)
  {
    assert LatestWaiting(t.pendings) == Some(first) by { assert [first][1..] == []; }
    hide LoadedState, HasPosition, BrokersFlat, Residual, RepairRow, LatestWaiting;
  }
}
