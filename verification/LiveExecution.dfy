/** Strategy, coordinator and fill-derived sizing together: what the strategy believes and what the venues hold. */
module LiveExecution {
  import opened Models
  import opened Intent
  import opened Coordinator
  import opened Exposure
  import opened Sizing
  import opened StrategyModel
  import opened StrategyLaws
  import opened ExecutedPosition
  import RecoveryModel

  function LegOf(request: OrderRequest): ExecutionLeg {
    ExecutionLeg(request.broker, request.symbol, request.side, request.quantity, request.price, MARKET, request.feeTwd)
  }

  /** The plan the coordinator records for a pair of order requests, with the verdict of its live checks. */
  function RecordedPlan(planType: PlanType, direction: Direction, requests: seq<OrderRequest>, c: Circumstances)
    : PairExecutionPlan
    requires |requests| == 2
  {
    var plan := PairExecutionPlan("", planType, direction, [LegOf(requests[0]), LegOf(requests[1])], Created,
                                  requests[1].symbol, MARKET, c.checks);
    plan.(status := if LivePlanOk(plan, c.ccfFirst) then Recorded else PlanStatus.Rejected)
  }

  /** What the strategy and the venues look like after a live attempt; None when no plan was sent. */
  datatype Attempted = Attempted(step: Step, held: Account, run: Option<Run>)

  /**
   How the world meets a live attempt: broker behaviour, the call it starts at, the configuration and recorded checks.
   */
  datatype Circumstances = Circumstances(
    tape: Tape,
    now: nat,
    tolerances: map<BrokerName, real>,
    ccfFirst: bool,
    checks: seq<ExecutionCheck>
  )

  function PausedBy(outcome: Outcome): StrategyState {
    if outcome.recommended.Some? then outcome.recommended.value else Paused
  }

  function EntryCosts(setup: Setup, bar: MarketBar, sizing: PositionSizing): Costs
    requires Usable(setup, bar)
  {
    FillCosts(sizing.umcUnits, bar.umcTwdFair, sizing.ccfContracts, bar.ccfCloseFilled, setup.fees)
  }

  /** Books an entry outcome: the position comes from the fills, and fills that make no position pause the strategy. */
  function BookEntry(setup: Setup, st: RuntimeState, bar: MarketBar, snap: IndicatorSnapshot, outcome: Outcome,
                     requests: seq<OrderRequest>, delay: int): Step
    requires Usable(setup, bar) && st.candidate.direction.Some?
  {
    if outcome.status != Filled then
      Marked(setup, st.(candidate := NO_CANDIDATE, state := PausedBy(outcome)), bar, LiveExecution,
             "live_entry_not_filled", [], None)
    else
      match SizingFromFills(st.candidate.direction.value, outcome.fills, setup.umcSymbol, CcfSymbolOf(bar),
                            setup.fees.ccfContractMultiplier)
      case Unsized(_) =>
        Marked(setup, st.(candidate := NO_CANDIDATE, state := Paused), bar, LiveExecution, "live_entry_fill_mismatch",
               [], None)
      case Sized(sizing) =>
        EntryExecuted(setup, st, bar, snap, sizing, EntryCosts(setup, bar, sizing), requests, delay, "live_filled")
  }

  function LiveEntry(setup: Setup, st: RuntimeState, bar: MarketBar, snap: IndicatorSnapshot, c: Circumstances,
                     held: Account): Attempted
    requires Usable(setup, bar)
  {
    if st.candidate.time.None? then
      Attempted(Marked(setup, st.(state := Error), bar, ErrorAction, "entry_pending_without_candidate_time", [], None),
                held, None)
    else if st.candidate.direction.None? then
      Attempted(Marked(setup, st.(state := Error), bar, ErrorAction, "entry_pending_without_direction", [], None), held,
                None)
    else
      var delay := MinutesBetween(st.candidate.time.value, bar.timestamp);
      var sizing := SizePositionForDirection(st.candidate.direction.value, bar.umcTwdFair, bar.ccfCloseFilled,
                                             setup.strategy, setup.fees);
      var cancelled := st.(candidate := NO_CANDIDATE, state := Flat);
      if delay > setup.strategy.maxEntryDelayMinutes then
        Attempted(Marked(setup, cancelled, bar, EntryCancel, "entry_delay_exceeded", [], None), held, None)
      else if sizing.None? then
        Attempted(Marked(setup, cancelled, bar, EntryCancel, "ccf_contracts_rounded_to_zero", [], None), held, None)
      else
        var requests := EntryRequests(setup, bar, sizing.value, EntryCosts(setup, bar, sizing.value));
        var plan := RecordedPlan(Entry, st.candidate.direction.value, requests, c);
        var run := Protocol(c.tape, c.tolerances, plan, StartOfRun(c.now, held));
        Attempted(BookEntry(setup, st, bar, snap, run.outcome, requests, delay), run.world.held, Some(run))
  }

  /** A forced live exit reports why; any other reports that it filled. */
  function FilledExitText(exitReason: ExitReason): string {
    match exitReason
    case RolloverForceExit => "rollover_force_exit"
    case WeekendForceExit => "weekend_force_exit"
    case _ => "live_filled"
  }

  function BookExit(setup: Setup, st: RuntimeState, bar: MarketBar, snap: IndicatorSnapshot, outcome: Outcome,
                    costs: Costs, requests: seq<OrderRequest>, exitReason: ExitReason): Step
  {
    if outcome.status == Filled then
      ExitExecuted(setup, st, bar, snap, costs, requests, exitReason, FilledExitText(exitReason))
    else Marked(setup, st.(state := PausedBy(outcome)), bar, LiveExecution, "live_exit_not_filled", [], None)
  }

  function LiveExit(setup: Setup, st: RuntimeState, bar: MarketBar, snap: IndicatorSnapshot, exitReason: ExitReason,
                    c: Circumstances, held: Account): Attempted
    requires Usable(setup, bar)
  {
    if st.direction.None? || st.position.ccfContracts == 0 then
      Attempted(Marked(setup, st.(state := Error), bar, ErrorAction, "exit_without_open_position", [], None), held,
                None)
    else
      var costs := FillCosts(st.position.umcUnits, bar.umcTwdFair, st.position.ccfContracts, bar.ccfCloseFilled,
                             setup.fees);
      var requests := ExitRequests(setup, bar, st.position, costs);
      var plan := RecordedPlan(Exit, st.direction.value, requests, c);
      var run := Protocol(c.tape, c.tolerances, plan, StartOfRun(c.now, held));
      Attempted(BookExit(setup, st, bar, snap, run.outcome, costs, requests, exitReason), run.world.held, Some(run))
  }

  // ---------------------------------------------------------------- truthful venues

  /** Fills are complete and correct, and every position reading is the truth. */
  predicate Transparent(run: Run) {
    && AllHonest(run.world.sent)
    && (forall d :: d in run.world.sent ==> d.moved == ReportedMove(d))
    && (forall r :: r in run.world.readings ==> TruthfulReading(r))
  }

  /** Nobody else trades the instruments and the guard allows no slack. */
  ghost predicate Undisturbed(c: Circumstances) {
    NoDrift(c.tape) && forall b: BrokerName :: Tolerance(c.tolerances, b) == 0.0
  }

  /** The strategy's position is the brokers' position. */
  predicate Aligned(st: RuntimeState, held: Account) {
    held == Account(st.position.ccfContracts as real, st.position.umcUnits)
  }

  lemma {:induction false} GuardSees(tape: Tape, tolerances: map<BrokerName, real>, plan: PairExecutionPlan, n: nat,
                                     w: World, k: nat)
    requires k < n <= |plan.legs| && NoDrift(tape)
    ensures var (checks, after) := Guard(tape, tolerances, plan, n, w);
            && |after.readings| == |w.readings| + n && after.held == w.held
            && var r := after.readings[|w.readings| + k];
               && r.held == w.held.Of(plan.legs[k].broker)
               && checks[k] == CheckPosition(plan, plan.legs[k], r.reply, Tolerance(tolerances, plan.legs[k].broker))
  {
    var earlier := Guard(tape, tolerances, plan, n - 1, w);
    if k < n - 1 {
      GuardSees(tape, tolerances, plan, n - 1, w, k);
    } else if n > 1 {
      GuardSees(tape, tolerances, plan, n - 1, w, 0);
    }
  }

  lemma {:induction false} ObserveAppends(tape: Tape, plan: PairExecutionPlan, n: nat, w: World)
    requires n <= |plan.legs|
    ensures w.readings <= Observe(tape, plan, n, w).1.readings
  {
    if n > 0 {
      ObserveAppends(tape, plan, n - 1, w);
    }
  }

  lemma AfterGuardAppends(tape: Tape, tolerances: map<BrokerName, real>, plan: PairExecutionPlan, ccfLeg: ExecutionLeg,
                          umcLeg: ExecutionLeg, w: World)
    ensures w.readings <= AfterGuard(tape, tolerances, plan, ccfLeg, umcLeg, w).world.readings
    ensures NoDrift(tape) ==> AfterGuard(tape, tolerances, plan, ccfLeg, umcLeg, w).world.drifted == w.drifted
    ensures AfterGuard(tape, tolerances, plan, ccfLeg, umcLeg, w).world.opening == w.opening
  {
    var (before, w1) := Observe(tape, plan, |plan.legs|, w);
    ObserveAppends(tape, plan, |plan.legs|, w);
    var (ccf, w2) := Send(tape, ccfLeg, plan.planType, false, w1);
    var (umc, w3) := Send(tape, umcLeg, plan.planType, false, w2);
    SecondFailureAppends(tape, tolerances, plan, ccfLeg, umcLeg, ccf, umc, before, w3);
  }

  lemma SecondFailureAppends(tape: Tape, tolerances: map<BrokerName, real>, plan: PairExecutionPlan,
                             ccfLeg: ExecutionLeg,
                             umcLeg: ExecutionLeg, ccf: Outcome, umc: Outcome, before: map<BrokerName, Option<real>>,
                             w: World)
    ensures var after := AfterSecondFailure(tape, tolerances, plan, ccfLeg, umcLeg, ccf, umc, before, w).world;
            w.readings <= after.readings && after.opening == w.opening && (NoDrift(tape) ==> after.drifted == w.drifted)
  {
    var (moved, w1) := LegMoved(tape, tolerances, umcLeg, before, w);
    ObserveAppends(tape, plan, |plan.legs|, w1);
  }

  /** A guard that passes under truthful readings and no slack has pinned both positions. */
  lemma GuardPins(c: Circumstances, plan: PairExecutionPlan, held: Account, k: nat)
    requires Undisturbed(c) && Sendable(plan) && k < 2
    requires var run := Protocol(c.tape, c.tolerances, plan, StartOfRun(c.now, held));
             Transparent(run) && run.outcome.status == Filled
    ensures var leg := plan.legs[k];
            held.Of(leg.broker) == if plan.planType == Exit then SignedCloseQuantity(leg.side, leg.quantity) else 0.0
  {
    LivePlanHasBothLegs(plan, true);
    var w := StartOfRun(c.now, held);
    var (checks, w1) := Guard(c.tape, c.tolerances, plan, 2, w);
    GuardSees(c.tape, c.tolerances, plan, 2, w, k);
    AfterGuardAppends(c.tape, c.tolerances, plan, CcfLeg(plan), UmcLeg(plan), w1);
    var run := Protocol(c.tape, c.tolerances, plan, w);
    assert run == AfterGuard(c.tape, c.tolerances, plan, CcfLeg(plan), UmcLeg(plan), w1);
    assert w1.readings[k] in run.world.readings;
    assert checks[k] in checks;
  }

  lemma {:induction false} NothingUnreported(sent: seq<Dispatch>, broker: BrokerName)
    requires forall d :: d in sent ==> d.moved == ReportedMove(d)
    ensures UnreportedMoves(sent, broker) == 0.0
  {
    if sent != [] {
      NothingUnreported(sent[..|sent| - 1], broker);
    }
  }

  lemma ProtocolUndrifted(c: Circumstances, plan: PairExecutionPlan, held: Account)
    requires NoDrift(c.tape) && Sendable(plan)
    ensures var after := Protocol(c.tape, c.tolerances, plan, StartOfRun(c.now, held)).world;
            after.opening == held && after.drifted == Account(0.0, 0.0)
  {
    LivePlanHasBothLegs(plan, true);
    var w1 := Guard(c.tape, c.tolerances, plan, 2, StartOfRun(c.now, held)).1;
    AfterGuardAppends(c.tape, c.tolerances, plan, CcfLeg(plan), UmcLeg(plan), w1);
  }

  /** With transparent venues a run that did not fill and called nobody left both positions exactly as it found them. */
  lemma QuietFailureRestores(c: Circumstances, plan: PairExecutionPlan, held: Account)
    requires Undisturbed(c) && Sendable(plan)
    requires var run := Protocol(c.tape, c.tolerances, plan, StartOfRun(c.now, held));
             Transparent(run) && run.outcome.status != Filled && !NeedsHuman(run)
    ensures var run := Protocol(c.tape, c.tolerances, plan, StartOfRun(c.now, held));
            run.world.held == held && run.outcome.recommended == Some(Paused)
  {
    hide Protocol;
    var w := StartOfRun(c.now, held);
    ExposureSafety(c.tape, c.tolerances, plan, w);
    var run := Protocol(c.tape, c.tolerances, plan, w);
    ProtocolUndrifted(c, plan, held);
    QuietFailureResidual(c.tape, c.tolerances, plan, w, FubonCcf);
    QuietFailureResidual(c.tape, c.tolerances, plan, w, IbkrUmc);
    NothingUnreported(run.world.sent, FubonCcf);
    NothingUnreported(run.world.sent, IbkrUmc);
  }

  /** The signed shares UMC can fill of a wanted position. */
  function Delivered(umcUnits: real): real {
    if umcUnits < 0.0 then -(WholeShares(umcUnits) as real) else WholeShares(umcUnits) as real
  }

  lemma DeliveredIsWhole(umcUnits: real)
    ensures IsWhole(Delivered(umcUnits))
    ensures 0.0 <= Abs(umcUnits) - Abs(Delivered(umcUnits)) < 1.0
    ensures IsWhole(umcUnits) <==> Delivered(umcUnits) == umcUnits
    ensures Abs(Delivered(umcUnits)) == WholeShares(umcUnits) as real
  {
    var shares: int := WholeShares(umcUnits);
    assert (shares as real).Floor == shares && (-(shares as real)).Floor == -shares;
    if IsWhole(umcUnits) {
      assert (-umcUnits).Floor == -umcUnits.Floor;
    }
  }

  lemma LegVenues(plan: PairExecutionPlan)
    requires Sendable(plan)
    ensures CcfLeg(plan).broker == FubonCcf && UmcLeg(plan).broker == IbkrUmc
  {
  }

  lemma FilledMove(d: Dispatch)
    requires Honest(d) && d.outcome.status == Filled
    ensures ReportedMove(d) == d.leg.side.Sign() * Deliverable(d.leg) && Deliverable(d.leg) > 0.0
    ensures d.leg.broker == FubonCcf ==> Deliverable(d.leg) == d.leg.quantity
  {
    HonestReport(d);
  }

  lemma TwoMoves(sent: seq<Dispatch>)
    requires |sent| == 2 && sent[0].leg.broker == FubonCcf && sent[1].leg.broker == IbkrUmc
    ensures ReportedMoves(sent, FubonCcf) == ReportedMove(sent[0]) && TrueMoves(sent, FubonCcf) == sent[0].moved
    ensures ReportedMoves(sent, IbkrUmc) == ReportedMove(sent[1]) && TrueMoves(sent, IbkrUmc) == sent[1].moved
  {
    hide ReportedMove;
    FourShares(sent, FubonCcf);
    FourShares(sent, IbkrUmc);
  }

  /** A filled run is two orders, each reporting everything its venue could deliver of the leg. */
  lemma FilledSent(c: Circumstances, plan: PairExecutionPlan, held: Account)
    requires Sendable(plan)
    requires var run := Protocol(c.tape, c.tolerances, plan, StartOfRun(c.now, held));
             Transparent(run) && run.outcome.status == Filled
    ensures var run := Protocol(c.tape, c.tolerances, plan, StartOfRun(c.now, held));
            var sent := run.world.sent;
            && Orderly(plan, sent) && Conserved(run.world) && AllHonest(sent)
               && run.outcome.fills == AllFills(Outcomes(sent))
            && ReportedMoves(sent, FubonCcf) == TrueMoves(sent, FubonCcf)
               == CcfLeg(plan).side.Sign() * CcfLeg(plan).quantity
            && ReportedMoves(sent, IbkrUmc) == TrueMoves(sent, IbkrUmc)
               == UmcLeg(plan).side.Sign() * Deliverable(UmcLeg(plan))
            && Deliverable(UmcLeg(plan)) > 0.0
  {
    hide Protocol, Deliverable, Conserved, LegFilled, Honest, ReportedMoves, TrueMoves;
    LegVenues(plan);
    var w := StartOfRun(c.now, held);
    ProtocolAccounted(c.tape, c.tolerances, plan, w);
    var sent := Protocol(c.tape, c.tolerances, plan, w).world.sent;
    assert |sent| == 2 && sent[0].leg == CcfLeg(plan) && sent[1].leg == UmcLeg(plan);
    hide LivePlanOk, CcfLeg, UmcLeg, UnfilledEmergency, Reverses, ReportedMove;
    assert sent[0] in sent && sent[1] in sent;
    FilledMove(sent[0]);
    FilledMove(sent[1]);
    TwoMoves(sent);
  }

  /** A filled run moved CCF by its leg and UMC by the whole shares of its leg, and its fills say so. */
  lemma FilledMovesLegs(c: Circumstances, plan: PairExecutionPlan, held: Account)
    requires Undisturbed(c) && Sendable(plan)
    requires var run := Protocol(c.tape, c.tolerances, plan, StartOfRun(c.now, held));
             Transparent(run) && run.outcome.status == Filled
    ensures var run := Protocol(c.tape, c.tolerances, plan, StartOfRun(c.now, held));
            var ccf := CcfLeg(plan).side.Sign() * CcfLeg(plan).quantity;
            var umc := UmcLeg(plan).side.Sign() * Deliverable(UmcLeg(plan));
            && run.world.held == Account(held.ccf + ccf, held.umc + umc)
            && SignedQuantity(run.outcome.fills, FubonCcf, CcfLeg(plan).symbol) == ccf
            && SignedQuantity(run.outcome.fills, IbkrUmc, UmcLeg(plan).symbol) == umc
            && Deliverable(UmcLeg(plan)) > 0.0
            && forall f :: f in run.outcome.fills ==> f.price > 0.0
  {
    hide Protocol, Orderly, AllHonest, Transparent, ReportedMoves, TrueMoves;
    ProtocolUndrifted(c, plan, held);
    FilledSent(c, plan, held);
    var run := Protocol(c.tape, c.tolerances, plan, StartOfRun(c.now, held));
    var sent := run.world.sent;
    assert CcfLeg(plan) in plan.legs && UmcLeg(plan) in plan.legs;
    LegsCarrySymbols(plan, sent, CcfLeg(plan));
    LegsCarrySymbols(plan, sent, UmcLeg(plan));
    FillsSumToReportedMoves(sent, FubonCcf, CcfLeg(plan).symbol);
    FillsSumToReportedMoves(sent, IbkrUmc, UmcLeg(plan).symbol);
    FillPricesPositive(sent);
    assert run.world.held.Of(FubonCcf) == held.ccf + TrueMoves(sent, FubonCcf);
    assert run.world.held.Of(IbkrUmc) == held.umc + TrueMoves(sent, IbkrUmc);
  }

  lemma {:induction false} FillPricesPositive(sent: seq<Dispatch>)
    requires AllHonest(sent)
    ensures forall f :: f in AllFills(Outcomes(sent)) ==> f.price > 0.0
  {
    if sent != [] {
      var front, last := sent[..|sent| - 1], sent[|sent| - 1];
      FillPricesPositive(front);
      assert last in sent;
      assert Outcomes(sent)[..|sent| - 1] == Outcomes(front);
    }
  }

  // ---------------------------------------------------------------- plans the strategy makes

  predicate PairSigns(planType: PlanType, direction: Direction, umcUnits: real, ccfContracts: int) {
    if planType == Entry then DirectionSigns(direction, umcUnits, ccfContracts)
    else DirectionSigns(direction, -umcUnits, -ccfContracts)
  }

  /** Orders for a directed pair always make a plan that passes the live checks, and each leg adds its signed amount. */
  lemma PairPlanSendable(setup: Setup, bar: MarketBar, planType: PlanType, direction: Direction, umcUnits: real,
                         ccfContracts: int,
                         umcPrice: real, ccfPrice: real, costs: Costs, c: Circumstances)
    requires PairSigns(planType, direction, umcUnits, ccfContracts)
    ensures var plan := RecordedPlan(planType, direction,
                                     PairOrderRequests(setup, bar, umcUnits, ccfContracts, umcPrice, ccfPrice, costs),
                                     c);
            && (Sendable(plan) <==> c.ccfFirst) && (plan.status == Recorded <==> c.ccfFirst)
               && plan.planType == planType
            && |plan.legs| == 2
            && plan.legs[0].broker == IbkrUmc && plan.legs[1].broker == FubonCcf
            && UmcLeg(plan) == plan.legs[0] && CcfLeg(plan) == plan.legs[1]
            && UmcLeg(plan).symbol == setup.umcSymbol && CcfLeg(plan).symbol == CcfSymbolOf(bar)
            && UmcLeg(plan).side.Sign() * Deliverable(UmcLeg(plan)) == Delivered(umcUnits)
            && Deliverable(UmcLeg(plan)) == Abs(Delivered(umcUnits))
            && CcfLeg(plan).side.Sign() * CcfLeg(plan).quantity == ccfContracts as real
            && SignedCloseQuantity(UmcLeg(plan).side, UmcLeg(plan).quantity) == -umcUnits
            && SignedCloseQuantity(CcfLeg(plan).side, CcfLeg(plan).quantity) == -ccfContracts as real
  {
  }

  // ---------------------------------------------------------------- main results

  /** Fills the strategy could not turn into a position although the plan filled. */
  predicate FillMismatch(a: Attempted) {
    a.run.Some? && a.run.value.outcome.status == Filled && a.step.report.reason == "live_entry_fill_mismatch"
  }

  /**
   A filled entry makes exactly the position the venues now hold, whatever was asked for: the CCF lots of the plan and
   the whole shares of its UMC leg, less than one share short of it. Sizing from the fills never refuses them.
   */
  lemma FilledEntryIsHeld(setup: Setup, bar: MarketBar, direction: Direction, umcUnits: real, ccfContracts: int,
                          umcPrice: real, ccfPrice: real, costs: Costs, c: Circumstances, held: Account)
    requires setup.fees.ccfContractMultiplier > 0.0 && DirectionSigns(direction, umcUnits, ccfContracts)
             && Undisturbed(c)
    requires var requests := PairOrderRequests(setup, bar, umcUnits, ccfContracts, umcPrice, ccfPrice, costs);
             var plan := RecordedPlan(Entry, direction, requests, c);
             var run := Protocol(c.tape, c.tolerances, plan, StartOfRun(c.now, held));
             c.ccfFirst && Transparent(run) && run.outcome.status == Filled
    ensures var requests := PairOrderRequests(setup, bar, umcUnits, ccfContracts, umcPrice, ccfPrice, costs);
            var plan := RecordedPlan(Entry, direction, requests, c);
            var run := Protocol(c.tape, c.tolerances, plan, StartOfRun(c.now, held));
            var sized := SizingFromFills(direction, run.outcome.fills, setup.umcSymbol, CcfSymbolOf(bar),
                                         setup.fees.ccfContractMultiplier);
            && run.world.held == Account(ccfContracts as real, Delivered(umcUnits))
            && sized.Sized? && Account(sized.sizing.ccfContracts as real, sized.sizing.umcUnits) == run.world.held
            && IsWhole(run.world.held.umc) && Abs(run.world.held.umc) >= 1.0
            && 0.0 <= Abs(umcUnits) - Abs(run.world.held.umc) < 1.0
            && DirectionSigns(direction, sized.sizing.umcUnits, sized.sizing.ccfContracts)
  {
    hide Protocol, SizingFromFills, PairOrderRequests, RecordedPlan, Transparent, Undisturbed, IsClose, Round,
         WholeShares;
    hide Delivered, Deliverable;
    WholeLotsAreClose(ccfContracts);
    DeliveredIsWhole(umcUnits);
    PairPlanSendable(setup, bar, Entry, direction, umcUnits, ccfContracts, umcPrice, ccfPrice, costs, c);
    var requests := PairOrderRequests(setup, bar, umcUnits, ccfContracts, umcPrice, ccfPrice, costs);
    var plan := RecordedPlan(Entry, direction, requests, c);
    GuardPins(c, plan, held, 0);
    GuardPins(c, plan, held, 1);
    FilledMovesLegs(c, plan, held);
    var fills := Protocol(c.tape, c.tolerances, plan, StartOfRun(c.now, held)).outcome.fills;
    SomethingDelivered(direction, umcUnits, ccfContracts);
    SizedExactlyWhen(direction, fills, setup.umcSymbol, CcfSymbolOf(bar), setup.fees.ccfContractMultiplier);
  }

  /** At least one delivered share keeps the sides of the position. */
  lemma SomethingDelivered(direction: Direction, umcUnits: real, ccfContracts: int)
    requires DirectionSigns(direction, umcUnits, ccfContracts) && Abs(Delivered(umcUnits)) > 0.0
    ensures DirectionSigns(direction, Delivered(umcUnits), ccfContracts) && Abs(Delivered(umcUnits)) >= 1.0
  {
  }

  /** Booking an entry outcome: what the state becomes for each way the outcome can read. */
  lemma BookEntryOk(setup: Setup, st: RuntimeState, bar: MarketBar, snap: IndicatorSnapshot, outcome: Outcome,
                    requests: seq<OrderRequest>, delay: int)
    requires Usable(setup, bar) && WellFormed(st) && st.state == EntryPending
    requires outcome.status != Filled ==> outcome.recommended == Some(Paused)
    ensures var step := BookEntry(setup, st, bar, snap, outcome, requests, delay);
            var sized := SizingFromFills(st.candidate.direction.value, outcome.fills, setup.umcSymbol, CcfSymbolOf(bar),
                                         setup.fees.ccfContractMultiplier);
            && WellFormed(step.state) && MoneyKept(st, step.state, step.report.trade)
               && step.state.pnlStatus == st.pnlStatus
            && (outcome.status == Filled ==> (step.report.reason == "live_entry_fill_mismatch" <==> sized.Unsized?))
            && (if outcome.status == Filled && sized.Sized?
                then step.state.state == Open && step.state.position.umcUnits == sized.sizing.umcUnits
                     && step.state.position.ccfContracts == sized.sizing.ccfContracts
                else step.state.state == Paused && step.state.position == NO_POSITION)
  {
    var direction, multiplier := st.candidate.direction.value, setup.fees.ccfContractMultiplier;
    var sized := SizingFromFills(direction, outcome.fills, setup.umcSymbol, CcfSymbolOf(bar), multiplier);
    assert sized.Sized? ==> DirectionSigns(direction, sized.sizing.umcUnits, sized.sizing.ccfContracts);
    hide SizingFromFills, FillCosts;
  }

  /** A plan whose live checks failed is refused before a broker is asked anything. */
  lemma RefusedPlanIsIdle(c: Circumstances, plan: PairExecutionPlan, held: Account)
    requires plan.status != Recorded
    ensures var run := Protocol(c.tape, c.tolerances, plan, StartOfRun(c.now, held));
            run.world.held == held && run.outcome.status != Filled && run.outcome.recommended == Some(Paused)
  {
  }

  /** What the strategy asked for on this bar. */
  function Wanted(setup: Setup, st: RuntimeState, bar: MarketBar): Option<PositionSizing>
    requires Usable(setup, bar) && st.candidate.direction.Some?
  {
    SizePositionForDirection(st.candidate.direction.value, bar.umcTwdFair, bar.ccfCloseFilled, setup.strategy,
                             setup.fees)
  }

  /**
   A live entry from an aligned pending state leaves strategy and venues aligned whatever happens, as long as the venues
   are transparent, nobody else trades and no human was called. When it opens, the position is the wanted one less the
   fraction of a share that was never sent; fills that make no position cannot occur.
   */
  lemma LiveEntryAligned(setup: Setup, st: RuntimeState, bar: MarketBar, snap: IndicatorSnapshot, c: Circumstances,
                         held: Account)
    requires Usable(setup, bar) && WellFormed(st) && st.state == EntryPending && Aligned(st, held) && Undisturbed(c)
    requires var a := LiveEntry(setup, st, bar, snap, c, held);
             a.run.Some? ==> Transparent(a.run.value) && !NeedsHuman(a.run.value)
    ensures var a := LiveEntry(setup, st, bar, snap, c, held);
            && WellFormed(a.step.state) && MoneyKept(st, a.step.state, a.step.report.trade)
            && Aligned(a.step.state, a.held) && IsWhole(a.held.umc) && !FillMismatch(a)
            && (a.step.state.state == Open <==> a.run.Some? && a.run.value.outcome.status == Filled)
            && (a.step.state.state == Open ==>
                  var wanted, got := Wanted(setup, st, bar).value, a.step.state.position;
                  && got.ccfContracts == wanted.ccfContracts && got.umcUnits == Delivered(wanted.umcUnits)
                  && 0.0 <= Abs(wanted.umcUnits) - Abs(got.umcUnits) < 1.0)
  {
    hide Protocol, SizingFromFills, FillCosts, RoundHalfUpNonNegative, NeedsHuman, Transparent, RecordedPlan;
    hide PairOrderRequests, BookEntry, Undisturbed, Delivered;
    var a := LiveEntry(setup, st, bar, snap, c, held);
    if a.run.Some? {
      var direction, s := st.candidate.direction.value, Wanted(setup, st, bar).value;
      hide SizePositionForDirection;
      var costs := EntryCosts(setup, bar, s);
      var requests := EntryRequests(setup, bar, s, costs);
      var plan := RecordedPlan(Entry, direction, requests, c);
      PairPlanSendable(setup, bar, Entry, direction, s.umcUnits, s.ccfContracts, OpenUmcPrice(bar), OpenCcfPrice(bar),
                       costs, c);
      if !c.ccfFirst {
        RefusedPlanIsIdle(c, plan, held);
      } else if a.run.value.outcome.status == Filled {
        FilledEntryIsHeld(setup, bar, direction, s.umcUnits, s.ccfContracts, OpenUmcPrice(bar), OpenCcfPrice(bar),
                          costs, c, held);
      } else {
        QuietFailureRestores(c, plan, held);
      }
      BookEntryOk(setup, st, bar, snap, a.run.value.outcome, requests,
                  MinutesBetween(st.candidate.time.value, bar.timestamp));
    }
  }

  lemma BookExitOk(setup: Setup, st: RuntimeState, bar: MarketBar, snap: IndicatorSnapshot, outcome: Outcome,
                   costs: Costs, requests: seq<OrderRequest>, exitReason: ExitReason)
    requires Usable(setup, bar) && Holding(st)
    requires outcome.status != Filled ==> outcome.recommended == Some(Paused)
    ensures var step := BookExit(setup, st, bar, snap, outcome, costs, requests, exitReason);
            && WellFormed(step.state) && MoneyKept(st, step.state, step.report.trade)
               && step.state.pnlStatus == st.pnlStatus
            && (if outcome.status == Filled then step.state.state == Flat && step.state.position == NO_POSITION
                else step.state.state == Paused && step.state.position == st.position && Holding(step.state))
  {
  }

  /**
   A live exit that quietly does not fill leaves everything as it was. One that fills leaves CCF flat and of UMC the
   fraction of a share it could not send: both sides stay aligned exactly when the held UMC was whole.
   */
  lemma LiveExitAligned(setup: Setup, st: RuntimeState, bar: MarketBar, snap: IndicatorSnapshot, exitReason: ExitReason,
                        c: Circumstances, held: Account)
    requires Usable(setup, bar) && WellFormed(st) && Holding(st) && Aligned(st, held) && Undisturbed(c)
    requires var a := LiveExit(setup, st, bar, snap, exitReason, c, held);
             a.run.Some? ==> Transparent(a.run.value) && !NeedsHuman(a.run.value)
    ensures var a := LiveExit(setup, st, bar, snap, exitReason, c, held);
            && WellFormed(a.step.state) && MoneyKept(st, a.step.state, a.step.report.trade) && a.run.Some?
            && (if a.run.value.outcome.status == Filled
                then a.step.state.state == Flat && a.held == Account(0.0, held.umc - Delivered(held.umc))
                else a.step.state.state == Paused && a.held == held && Holding(a.step.state))
            && (Aligned(a.step.state, a.held) <==> (a.run.value.outcome.status == Filled ==> IsWhole(held.umc)))
  {
    hide Protocol, FillCosts, NeedsHuman, Transparent, RecordedPlan, PairOrderRequests, BookExit, Undisturbed,
         Delivered;
    var costs := FillCosts(st.position.umcUnits, bar.umcTwdFair, st.position.ccfContracts, bar.ccfCloseFilled,
                           setup.fees);
    var requests := ExitRequests(setup, bar, st.position, costs);
    PairPlanSendable(setup, bar, Exit, st.direction.value, -st.position.umcUnits, -st.position.ccfContracts,
                     bar.umcTwdFair, bar.ccfCloseFilled, costs, c);
    DeliveredIsWhole(held.umc);
    DeliveredIsOdd(held.umc);
    var plan := RecordedPlan(Exit, st.direction.value, requests, c);
    var run := Protocol(c.tape, c.tolerances, plan, StartOfRun(c.now, held));
    if !c.ccfFirst {
      RefusedPlanIsIdle(c, plan, held);
    } else if run.outcome.status == Filled {
      FilledMovesLegs(c, plan, held);
    } else {
      QuietFailureRestores(c, plan, held);
    }
    BookExitOk(setup, st, bar, snap, run.outcome, costs, requests, exitReason);
  }

  lemma DeliveredIsOdd(units: real)
    ensures Delivered(-units) == -Delivered(units)
  {
  }

  // ---------------------------------------------------------------- one live minute

  /** A run that did not fill always recommends PAUSED, whatever the venues did. */
  lemma UnfilledPauses(tape: Tape, tolerances: map<BrokerName, real>, plan: PairExecutionPlan, w: World)
    ensures var outcome := Protocol(tape, tolerances, plan, w).outcome;
            outcome.status != Filled ==> outcome.recommended == Some(Paused)
  {
  }

  /** A live entry keeps the state sound and the money whatever the venues do. */
  lemma LiveEntryOk(setup: Setup, st: RuntimeState, bar: MarketBar, snap: IndicatorSnapshot, c: Circumstances,
                    held: Account)
    requires Usable(setup, bar) && WellFormed(st) && st.state == EntryPending
    ensures var step := LiveEntry(setup, st, bar, snap, c, held).step;
            WellFormed(step.state) && MoneyKept(st, step.state, step.report.trade)
              && step.state.pnlStatus == st.pnlStatus
  {
    hide Protocol, SizingFromFills, FillCosts, RoundHalfUpNonNegative, RecordedPlan, PairOrderRequests, BookEntry;
    var a := LiveEntry(setup, st, bar, snap, c, held);
    if a.run.Some? {
      var s := Wanted(setup, st, bar).value;
      hide SizePositionForDirection;
      var requests := EntryRequests(setup, bar, s, EntryCosts(setup, bar, s));
      var plan := RecordedPlan(Entry, st.candidate.direction.value, requests, c);
      UnfilledPauses(c.tape, c.tolerances, plan, StartOfRun(c.now, held));
      BookEntryOk(setup, st, bar, snap, a.run.value.outcome, requests,
                  MinutesBetween(st.candidate.time.value, bar.timestamp));
    }
  }

  lemma LiveExitOk(setup: Setup, st: RuntimeState, bar: MarketBar, snap: IndicatorSnapshot, exitReason: ExitReason,
                   c: Circumstances, held: Account)
    requires Usable(setup, bar) && Holding(st)
    ensures var step := LiveExit(setup, st, bar, snap, exitReason, c, held).step;
            WellFormed(step.state) && MoneyKept(st, step.state, step.report.trade)
              && step.state.pnlStatus == st.pnlStatus
  {
    hide Protocol, FillCosts, RecordedPlan, PairOrderRequests, BookExit;
    var costs := FillCosts(st.position.umcUnits, bar.umcTwdFair, st.position.ccfContracts, bar.ccfCloseFilled,
                           setup.fees);
    var requests := ExitRequests(setup, bar, st.position, costs);
    var plan := RecordedPlan(Exit, st.direction.value, requests, c);
    UnfilledPauses(c.tape, c.tolerances, plan, StartOfRun(c.now, held));
    BookExitOk(setup, st, bar, snap, Protocol(c.tape, c.tolerances, plan, StartOfRun(c.now, held)).outcome, costs,
               requests, exitReason);
  }

  /**
   One minute of the live loop: a forced exit when the calendar or the contract policy asks for one, whether the entry
   gate is closed, whether a mismatch was confirmed after trading, and the venues.
   */
  datatype LiveMinute = LiveMinute(
    bar: MarketBar,
    snap: IndicatorSnapshot,
    forced: Option<ExitReason>,
    entryBlocked: bool,
    mismatchConfirmed: bool,
    c: Circumstances
  )

  function EnterUnlessBlocked(setup: Setup, st: RuntimeState, m: LiveMinute, held: Account): Attempted
    requires Usable(setup, m.bar)
  {
    if m.entryBlocked then
      Attempted(Marked(setup, st.(candidate := NO_CANDIDATE, state := Flat), m.bar, EntryCancel,
                       "reconciliation_entry_gate_closed", [], None), held, None)
    else LiveEntry(setup, st, m.bar, m.snap, m.c, held)
  }

  function Traded(setup: Setup, st: RuntimeState, m: LiveMinute, held: Account): Attempted
    requires Usable(setup, m.bar)
  {
    if m.forced.Some? then LiveExit(setup, st, m.bar, m.snap, m.forced.value, m.c, held)
    else if st.state == EntryPending then EnterUnlessBlocked(setup, st, m, held)
    else if st.state == ExitPending then LiveExit(setup, st, m.bar, m.snap, ZscoreExit, m.c, held)
    else
      var step := StrategyModel.OnBar(setup, st, m.bar, m.snap);
      if step.report.action == EntrySignal && step.state.state == EntryPending then
        EnterUnlessBlocked(setup, step.state, m, held)
      else if step.report.action == ExitSignal && step.state.state == ExitPending then
        LiveExit(setup, step.state, m.bar, m.snap, ZscoreExit, m.c, held)
      else Attempted(step, held, None)
  }

  /** The live bar handler: trade, then pause if reconciliation confirmed a mismatch. */
  function HandleBar(setup: Setup, st: RuntimeState, m: LiveMinute, held: Account): Attempted
    requires Usable(setup, m.bar)
  {
    var a := Traded(setup, st, m, held);
    if a.run.Some? && m.mismatchConfirmed then
      var paused := Step(a.step.state.(state := Paused),
                         a.step.report.(action := LiveExecution, reason := "post_trade_reconciliation_mismatch"));
      a.(step := paused)
    else a
  }

  /** What the live calendar guarantees: no paper Friday close, and a forced exit only while a position is held. */
  predicate LiveReady(setup: Setup, st: RuntimeState, m: LiveMinute) {
    Usable(setup, m.bar) && !m.bar.fridayForceClose && (m.forced.Some? ==> st.direction.Some?)
  }

  /** Between orders a live bar only moves signals: no trade, no order, no change of position or money. */
  lemma SignalBarIdle(setup: Setup, st: RuntimeState, bar: MarketBar, snap: IndicatorSnapshot)
    requires Usable(setup, bar) && WellFormed(st) && !bar.fridayForceClose && st.state !in {EntryPending, ExitPending}
    ensures var step := StrategyModel.OnBar(setup, st, bar, snap);
            && WellFormed(step.state) && step.report.requests == [] && step.report.trade == None
            && step.state.position == st.position && step.state.pnlStatus == st.pnlStatus
            && step.state.openTrade == st.openTrade
            && step.state.realizedPnl == st.realizedPnl && step.state.realizedFeeTwd == st.realizedFeeTwd
  {
    hide EntryAttempt, ExitAttempt;
  }

  lemma EnterOk(setup: Setup, st: RuntimeState, m: LiveMinute, held: Account)
    requires Usable(setup, m.bar) && WellFormed(st) && st.state == EntryPending
    ensures var step := EnterUnlessBlocked(setup, st, m, held).step;
            WellFormed(step.state) && MoneyKept(st, step.state, step.report.trade)
              && step.state.pnlStatus == st.pnlStatus
  {
    hide LiveEntry;
    LiveEntryOk(setup, st, m.bar, m.snap, m.c, held);
  }

  lemma TradedOk(setup: Setup, st: RuntimeState, m: LiveMinute, held: Account)
    requires LiveReady(setup, st, m) && WellFormed(st)
    ensures var step := Traded(setup, st, m, held).step;
            WellFormed(step.state) && MoneyKept(st, step.state, step.report.trade)
              && step.state.pnlStatus == st.pnlStatus
  {
    hide LiveEntry, LiveExit, EnterUnlessBlocked, StrategyModel.OnBar, Usable;
    if m.forced.Some? {
      LiveExitOk(setup, st, m.bar, m.snap, m.forced.value, m.c, held);
    } else if st.state == EntryPending {
      EnterOk(setup, st, m, held);
    } else if st.state == ExitPending {
      LiveExitOk(setup, st, m.bar, m.snap, ZscoreExit, m.c, held);
    } else {
      SignalBarIdle(setup, st, m.bar, m.snap);
      var signalled := StrategyModel.OnBar(setup, st, m.bar, m.snap).state;
      if signalled.state == EntryPending {
        EnterOk(setup, signalled, m, held);
      } else if signalled.state == ExitPending {
        LiveExitOk(setup, signalled, m.bar, m.snap, ZscoreExit, m.c, held);
      }
    }
  }

  /** Every live minute keeps the state sound and the money, on any venues at all. */
  lemma HandleBarOk(setup: Setup, st: RuntimeState, m: LiveMinute, held: Account)
    requires LiveReady(setup, st, m) && WellFormed(st)
    ensures var step := HandleBar(setup, st, m, held).step;
            WellFormed(step.state) && MoneyKept(st, step.state, step.report.trade)
              && step.state.pnlStatus == st.pnlStatus
  {
    hide Traded, Usable;
    TradedOk(setup, st, m, held);
  }

  /** Surroundings in which both sides can agree: truthful venues, nobody else trading, no alarm. */
  ghost predicate Calm(m: LiveMinute, a: Attempted) {
    Undisturbed(m.c) && (a.run.Some? ==> Transparent(a.run.value) && !NeedsHuman(a.run.value))
  }

  lemma EnterAligned(setup: Setup, st: RuntimeState, m: LiveMinute, held: Account)
    requires Usable(setup, m.bar) && WellFormed(st) && st.state == EntryPending && Aligned(st, held)
    requires Calm(m, EnterUnlessBlocked(setup, st, m, held))
    ensures var a := EnterUnlessBlocked(setup, st, m, held);
            Aligned(a.step.state, a.held) && IsWhole(a.held.umc)
  {
    hide LiveEntry, Transparent, NeedsHuman, Undisturbed;
    if !m.entryBlocked {
      LiveEntryAligned(setup, st, m.bar, m.snap, m.c, held);
    }
  }

  lemma ExitAligned(setup: Setup, st: RuntimeState, m: LiveMinute, exitReason: ExitReason, held: Account)
    requires Usable(setup, m.bar) && WellFormed(st) && Holding(st) && Aligned(st, held) && IsWhole(held.umc)
    requires Calm(m, LiveExit(setup, st, m.bar, m.snap, exitReason, m.c, held))
    ensures var a := LiveExit(setup, st, m.bar, m.snap, exitReason, m.c, held);
            Aligned(a.step.state, a.held) && IsWhole(a.held.umc)
  {
    hide LiveExit, Transparent, NeedsHuman, Undisturbed, Delivered, Usable;
    LiveExitAligned(setup, st, m.bar, m.snap, exitReason, m.c, held);
    DeliveredIsWhole(held.umc);
  }

  /** A live minute in calm surroundings keeps strategy and venues aligned, in whole shares. */
  lemma HandleBarAligned(setup: Setup, st: RuntimeState, m: LiveMinute, held: Account)
    requires LiveReady(setup, st, m) && WellFormed(st) && Aligned(st, held) && IsWhole(held.umc)
    requires Calm(m, HandleBar(setup, st, m, held))
    ensures var a := HandleBar(setup, st, m, held);
            Aligned(a.step.state, a.held) && IsWhole(a.held.umc)
  {
    hide LiveEntry, LiveExit, EnterUnlessBlocked, StrategyModel.OnBar, Usable, Transparent, NeedsHuman, Undisturbed;
    if m.forced.Some? {
      ExitAligned(setup, st, m, m.forced.value, held);
    } else if st.state == EntryPending {
      EnterAligned(setup, st, m, held);
    } else if st.state == ExitPending {
      ExitAligned(setup, st, m, ZscoreExit, held);
    } else {
      SignalBarIdle(setup, st, m.bar, m.snap);
      var step := StrategyModel.OnBar(setup, st, m.bar, m.snap);
      if step.report.action == EntrySignal && step.state.state == EntryPending {
        EnterAligned(setup, step.state, m, held);
      } else if step.report.action == ExitSignal && step.state.state == ExitPending {
        ExitAligned(setup, step.state, m, ZscoreExit, held);
      }
    }
  }

  // ---------------------------------------------------------------- whole runs

  datatype Book = Book(state: RuntimeState, held: Account)

  /** One thing that happens to a live book. Contract changes and pauses move no position. */
  datatype Episode =
    | Minute(m: LiveMinute)
    | ContractNoted(contract: ContractFields)
    | ContractSwitched(contract: ContractFields)
    | PauseFound
    | PauseLifted

  /** A switch cancels a pending entry and waits for anything held to close. */
  function Switched(st: RuntimeState, contract: ContractFields): RuntimeState {
    if st.state in {Flat, EntryPending} then st.(state := Flat, candidate := NO_CANDIDATE, contract := contract) else st
  }

  function PausedIfHolding(st: RuntimeState): RuntimeState {
    if RecoveryModel.HasPosition(st) then st.(state := Paused) else st
  }

  function Lifted(st: RuntimeState): RuntimeState {
    if st.state == Paused then st.(state := if RecoveryModel.HasPosition(st) then Open else Flat) else st
  }

  function Following(setup: Setup, book: Book, e: Episode): Book
    requires e.Minute? ==> Usable(setup, e.m.bar)
  {
    match e
    case Minute(m) => var a := HandleBar(setup, book.state, m, book.held); Book(a.step.state, a.held)
    case ContractNoted(contract) => book.(state := book.state.(contract := contract))
    case ContractSwitched(contract) => book.(state := Switched(book.state, contract))
    case PauseFound => book.(state := PausedIfHolding(book.state))
    case PauseLifted => book.(state := Lifted(book.state))
  }

  /** Minutes have to meet honest venues in calm surroundings; everything else is always covered. */
  ghost predicate Covered(setup: Setup, book: Book, e: Episode) {
    e.Minute? ==> LiveReady(setup, book.state, e.m) && Calm(e.m, HandleBar(setup, book.state, e.m, book.held))
  }

  ghost predicate AllCovered(setup: Setup, book: Book, episodes: seq<Episode>)
    decreases |episodes|
  {
    episodes == [] || (Covered(setup, book, episodes[0])
                       && AllCovered(setup, Following(setup, book, episodes[0]), episodes[1..]))
  }

  ghost function Ending(setup: Setup, book: Book, episodes: seq<Episode>): Book
    requires AllCovered(setup, book, episodes)
    decreases |episodes|
  {
    if episodes == [] then book else Ending(setup, Following(setup, book, episodes[0]), episodes[1..])
  }

  lemma EpisodeAligned(setup: Setup, book: Book, e: Episode)
    requires WellFormed(book.state) && Aligned(book.state, book.held) && IsWhole(book.held.umc)
             && Covered(setup, book, e)
    ensures var next := Following(setup, book, e);
            WellFormed(next.state) && Aligned(next.state, next.held) && IsWhole(next.held.umc)
  {
    hide HandleBar, Usable, Calm;
    if e.Minute? {
      HandleBarOk(setup, book.state, e.m, book.held);
      HandleBarAligned(setup, book.state, e.m, book.held);
    }
  }

  /**
   Over any run of live minutes, contract changes and pauses, filled or not, what the strategy believes is what the
   brokers hold. Whole UMC shares stay whole, which is what keeps every exit exact.
   */
  lemma {:induction false} AlignedForever(setup: Setup, book: Book, episodes: seq<Episode>)
    requires WellFormed(book.state) && Aligned(book.state, book.held) && IsWhole(book.held.umc)
    requires AllCovered(setup, book, episodes)
    ensures var end := Ending(setup, book, episodes);
            WellFormed(end.state) && Aligned(end.state, end.held) && IsWhole(end.held.umc)
    decreases |episodes|
  {
    hide Following, HandleBar, Calm, WellFormed, Aligned, IsWhole;
    if episodes != [] {
      EpisodeAligned(setup, book, episodes[0]);
      AlignedForever(setup, Following(setup, book, episodes[0]), episodes[1..]);
    }
  }
}
