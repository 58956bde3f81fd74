/** What each live minute asks of the venues, told from the minute and the state before it. */
module LiveDecisions {
  import opened Models
  import opened Intent
  import opened Coordinator
  import opened Exposure
  import opened Sizing
  import opened StrategyModel
  import opened StrategyLaws
  import opened BarLaws
  import opened ExecutedPosition
  import opened LiveExecution

  // ---------------------------------------------------------------- a pair of orders, seen from the venues

  /** The venue answers query number k of the run with the position wanted, within its slack. */
  predicate Finds(c: Circumstances, k: nat, broker: BrokerName, wanted: real) {
    var reply := c.tape(c.now + k).read;
    reply.Answer? && Abs(reply.quantity - wanted) <= if broker in c.tolerances then c.tolerances[broker] else 0.0
  }

  /** Both venues hold what the orders need to find: nothing before an entry, before an exit what it closes. */
  predicate Ready(c: Circumstances, planType: PlanType, umcUnits: real, ccfContracts: int) {
    && Finds(c, 0, IbkrUmc, if planType == Exit then -umcUnits else 0.0)
    && Finds(c, 1, FubonCcf, if planType == Exit then -(ccfContracts as real) else 0.0)
  }

  /** A market order for this signed amount of one instrument. */
  predicate Orders(d: Dispatch, planType: PlanType, broker: BrokerName, symbol: string, signed: real) {
    && d.planType == planType && !d.emergency
    && d.leg.broker == broker && d.leg.symbol == symbol && d.leg.orderType == MARKET
    && d.leg.quantity > 0.0 && d.leg.side.Sign() * d.leg.quantity == signed
  }

  /**
   The coordinator was asked for a pair: it sends nothing unless the configuration puts CCF first and both venues are
   ready, then the CCF lots, then the UMC units exactly if CCF reported FILLED, and after them only remedies.
   */
  predicate AskedFor(setup: Setup, bar: MarketBar, planType: PlanType, umcUnits: real, ccfContracts: int,
                     c: Circumstances, run: Run) {
    var sent := run.world.sent;
    && (sent != [] <==> c.ccfFirst && Ready(c, planType, umcUnits, ccfContracts))
    && (sent == [] ==> run.outcome.status == OutcomeStatus.Rejected)
    && (sent != [] ==>
          && Orders(sent[0], planType, FubonCcf, CcfSymbolOf(bar), ccfContracts as real)
          && if sent[0].outcome.status == Filled
             then |sent| > 1 && Orders(sent[1], planType, IbkrUmc, setup.umcSymbol, umcUnits) && OnlyRemedies(sent, 2)
             else OnlyRemedies(sent, 1))
  }

  /** Any pair of orders the strategy makes for a directed amount is asked for as such. */
  lemma PairIsAskedFor(setup: Setup, bar: MarketBar, planType: PlanType, direction: Direction, umcUnits: real,
                       ccfContracts: int, umcPrice: real, ccfPrice: real, costs: Costs, c: Circumstances, held: Account)
    requires PairSigns(planType, direction, umcUnits, ccfContracts)
    ensures var requests := PairOrderRequests(setup, bar, umcUnits, ccfContracts, umcPrice, ccfPrice, costs);
            var plan := RecordedPlan(planType, direction, requests, c);
            AskedFor(setup, bar, planType, umcUnits, ccfContracts, c,
                     Protocol(c.tape, c.tolerances, plan, StartOfRun(c.now, held)))
  {
    PairPlanSendable(setup, bar, planType, direction, umcUnits, ccfContracts, umcPrice, ccfPrice, costs, c);
    var requests := PairOrderRequests(setup, bar, umcUnits, ccfContracts, umcPrice, ccfPrice, costs);
    var plan := RecordedPlan(planType, direction, requests, c);
    SendsExactlyWhen(c.tape, c.tolerances, plan, StartOfRun(c.now, held));
    PairOrders(setup, bar, planType, direction, umcUnits, ccfContracts, umcPrice, ccfPrice, costs, c);
    PairReady(plan, umcUnits, ccfContracts, c);
    hide Protocol, RecordedPlan, PairOrderRequests, AllClear, Ready, Orders;
  }

  lemma PairOrders(setup: Setup, bar: MarketBar, planType: PlanType, direction: Direction, umcUnits: real,
                   ccfContracts: int, umcPrice: real, ccfPrice: real, costs: Costs, c: Circumstances)
    requires PairSigns(planType, direction, umcUnits, ccfContracts)
    ensures var requests := PairOrderRequests(setup, bar, umcUnits, ccfContracts, umcPrice, ccfPrice, costs);
            var plan := RecordedPlan(planType, direction, requests, c);
            && (forall d: Dispatch :: Carries(d, plan.planType, plan.legs[0]) ==>
                  Orders(d, planType, IbkrUmc, setup.umcSymbol, umcUnits))
            && (forall d: Dispatch :: Carries(d, plan.planType, plan.legs[1]) ==>
                  Orders(d, planType, FubonCcf, CcfSymbolOf(bar), ccfContracts as real))
            && plan.legs[0].side.Sign() * Abs(plan.legs[0].quantity) == umcUnits
            && plan.legs[1].side.Sign() * Abs(plan.legs[1].quantity) == ccfContracts as real
  {
  }

  lemma PairReady(plan: PairExecutionPlan, umcUnits: real, ccfContracts: int, c: Circumstances)
    requires |plan.legs| == 2 && plan.legs[0].broker == IbkrUmc && plan.legs[1].broker == FubonCcf
    requires plan.legs[0].side.Sign() * Abs(plan.legs[0].quantity) == umcUnits
    requires plan.legs[1].side.Sign() * Abs(plan.legs[1].quantity) == ccfContracts as real
    ensures AllClear(c.tape, c.tolerances, plan, c.now) <==> Ready(c, plan.planType, umcUnits, ccfContracts)
  {
    LegFinds(plan, 0, umcUnits, c);
    LegFinds(plan, 1, ccfContracts as real, c);
    hide Clears, Finds;
    assert AllClear(c.tape, c.tolerances, plan, c.now)
      <==> Clears(c.tape, c.tolerances, plan, 0, c.now) && Clears(c.tape, c.tolerances, plan, 1, c.now);
  }

  lemma LegFinds(plan: PairExecutionPlan, k: nat, signed: real, c: Circumstances)
    requires k < |plan.legs| && plan.legs[k].side.Sign() * Abs(plan.legs[k].quantity) == signed
    ensures Clears(c.tape, c.tolerances, plan, k, c.now)
            <==> Finds(c, k, plan.legs[k].broker, if plan.planType == Exit then -signed else 0.0)
  {
    var reply := c.tape(c.now + k).read;
    if reply.Answer? {
      var leg := plan.legs[k];
      var found := reply.quantity + if plan.planType == Exit then leg.side.Sign() * Abs(leg.quantity) else 0.0;
      assert found == reply.quantity - if plan.planType == Exit then -signed else 0.0;
    }
  }

  // ---------------------------------------------------------------- what a minute calls for

  /** An exit is due: forced, already pending, or called by a score that crossed over while holding. */
  predicate ExitDue(setup: Setup, st: RuntimeState, m: LiveMinute) {
    || m.forced.Some?
    || st.state == ExitPending
    || (st.state == Open && st.direction.Some? && CallsExit(setup, m.snap, st.direction.value))
  }

  /** An entry is due: pending, or called by a score beyond the threshold while flat, and no exit is forced. */
  predicate EntryDue(setup: Setup, st: RuntimeState, m: LiveMinute) {
    m.forced.None? && (st.state == EntryPending || (st.state == Flat && CallsSomeEntry(setup, m.snap)))
  }

  /** Why an exit goes out: the forced reason before any score. */
  function ReasonDue(m: LiveMinute): ExitReason {
    if m.forced.Some? then m.forced.value else ZscoreExit
  }

  /** Which way an entry goes: as it was pended, or against the score that calls it now. */
  function DirectionDue(setup: Setup, st: RuntimeState, m: LiveMinute): Direction {
    if st.state == EntryPending && st.candidate.direction.Some? then st.candidate.direction.value
    else if CallsEntry(setup, m.snap, ShortUmcLongCcf) then ShortUmcLongCcf else LongUmcShortCcf
  }

  /** When the entry was called: as it was pended, or on this minute. */
  function CalledAt(st: RuntimeState, m: LiveMinute): int {
    if st.state == EntryPending && st.candidate.time.Some? then st.candidate.time.value else m.bar.timestamp
  }

  /** An entry that may go out now: the gate is open, the call is in time, and the size comes to a contract. */
  predicate EntryMayGo(setup: Setup, st: RuntimeState, m: LiveMinute) {
    !m.entryBlocked && InTime(setup, CalledAt(st, m), m.bar) && WorthTrading(setup, m.bar.ccfCloseFilled)
  }

  /** The coordinator was asked to enter the wanted pair at the bar's closes. */
  ghost predicate EntryAsked(setup: Setup, direction: Direction, m: LiveMinute, run: Run)
    requires Usable(setup, m.bar)
  {
    exists p: Position :: WantedPair(setup, direction, p, m.bar.umcTwdFair, m.bar.ccfCloseFilled)
                          && AskedFor(setup, m.bar, Entry, p.umcUnits, p.ccfContracts, m.c, run)
  }

  // ---------------------------------------------------------------- entries

  /** What a live entry does: it goes out when it may, otherwise it is cancelled and nothing else moves. */
  lemma LiveEntryDecides(setup: Setup, st: RuntimeState, m: LiveMinute, held: Account)
    requires Usable(setup, m.bar) && WellFormed(st) && st.state == EntryPending
    ensures var a := EnterUnlessBlocked(setup, st, m, held);
            && (a.run.Some? <==> EntryMayGo(setup, st, m))
            && (a.run.None? ==> a.held == held && Cancelled(st, a.step))
            && (a.run.Some? ==>
                  && a.held == a.run.value.world.held
                  && EntryAsked(setup, st.candidate.direction.value, m, a.run.value)
                  && EntryTaken(setup, st, m, a.run.value.outcome, a.step))
  {
    DelayIsInTime(setup, st.candidate.time.value, m.bar);
    SizedIsWanted(setup, st.candidate.direction.value, m.bar.umcTwdFair, m.bar.ccfCloseFilled);
    hide WorthTrading, InTime, BookEntry, Protocol, SizePositionForDirection, RecordedPlan, EntryRequests, EntryCosts,
         UnrealizedPnl, AskedFor, WantedPair;
    var a := EnterUnlessBlocked(setup, st, m, held);
    if a.run.Some? {
      AskedEntry(setup, st, m, held);
      var s := Wanted(setup, st, m.bar).value;
      var requests := EntryRequests(setup, m.bar, s, EntryCosts(setup, m.bar, s));
      BookedEntryTaken(setup, st, m, a.run.value.outcome, requests,
                       MinutesBetween(st.candidate.time.value, m.bar.timestamp));
      var plan := RecordedPlan(Entry, st.candidate.direction.value, requests, m.c);
      UnfilledPauses(m.c.tape, m.c.tolerances, plan, StartOfRun(m.c.now, held));
    }
  }

  lemma AskedEntry(setup: Setup, st: RuntimeState, m: LiveMinute, held: Account)
    requires Usable(setup, m.bar) && WellFormed(st) && st.state == EntryPending
    requires LiveEntry(setup, st, m.bar, m.snap, m.c, held).run.Some?
    ensures EntryAsked(setup, st.candidate.direction.value, m, LiveEntry(setup, st, m.bar, m.snap, m.c, held).run.value)
  {
    var direction := st.candidate.direction.value;
    SizedIsWanted(setup, direction, m.bar.umcTwdFair, m.bar.ccfCloseFilled);
    var s := Wanted(setup, st, m.bar).value;
    var costs := EntryCosts(setup, m.bar, s);
    PairIsAskedFor(setup, m.bar, Entry, direction, s.umcUnits, s.ccfContracts, OpenUmcPrice(m.bar), OpenCcfPrice(m.bar),
                   costs, m.c, held);
    hide Protocol, SizePositionForDirection, BookEntry, AskedFor, WantedPair, EntryCosts, RecordedPlan,
         PairOrderRequests, UnrealizedPnl;
    var p := Position(s.umcUnits, s.ccfUnits, s.ccfContracts, s.actualLegNotionalTwd);
    assert WantedPair(setup, direction, p, m.bar.umcTwdFair, m.bar.ccfCloseFilled);
  }

  /**
   What the strategy makes of an entry's outcome: a fill that makes a position opens it, priced and charged for this
   bar; anything else pauses with nothing held.
   */
  predicate EntryTaken(setup: Setup, st: RuntimeState, m: LiveMinute, outcome: Outcome, step: Step)
    requires Usable(setup, m.bar) && st.candidate.direction.Some?
  {
    var sized := SizingFromFills(st.candidate.direction.value, outcome.fills, setup.umcSymbol, CcfSymbolOf(m.bar),
                                 setup.fees.ccfContractMultiplier);
    if outcome.status == Filled && sized.Sized? then
      && step.state.state == Open && step.state.direction == st.candidate.direction && step.state.openTrade.Some?
      && var (open, s) := (step.state.openTrade.value, sized.sizing);
         && step.state.position == open.position
            == Position(s.umcUnits, s.ccfUnits, s.ccfContracts, s.actualLegNotionalTwd)
         && open.entryUmc == OpenUmcPrice(m.bar) && open.entryCcf == OpenCcfPrice(m.bar)
         && open.entryIdx == m.bar.rowIndex && open.signalIdx == st.candidate.idx
         && open.costs == FillCosts(s.umcUnits, m.bar.umcTwdFair, s.ccfContracts, m.bar.ccfCloseFilled, setup.fees)
         && step.state.realizedPnl == st.realizedPnl - open.costs.totalFeeTwd
         && step.report.trade == None
    else
      && Unmoved(st.(state := Paused, candidate := NO_CANDIDATE), step.state)
      && step.report.trade == None && step.report.requests == []
  }

  lemma BookedEntryTaken(setup: Setup, st: RuntimeState, m: LiveMinute, outcome: Outcome, requests: seq<OrderRequest>,
                         delay: int)
    requires Usable(setup, m.bar) && st.candidate.direction.Some?
    ensures (outcome.status != Filled ==> outcome.recommended == Some(Paused)) ==>
              EntryTaken(setup, st, m, outcome, BookEntry(setup, st, m.bar, m.snap, outcome, requests, delay))
  {
    hide SizingFromFills, FillCosts, UnrealizedPnl;
  }

  // ---------------------------------------------------------------- exits

  /**
   What the strategy makes of an exit's outcome: a fill books the trade for its reason and leaves it flat, anything else
   pauses with the position kept.
   */
  predicate ExitTaken(setup: Setup, st: RuntimeState, m: LiveMinute, reason: ExitReason, outcome: Outcome, step: Step)
    requires Usable(setup, m.bar) && st.openTrade.Some?
  {
    if outcome.status == Filled then
      && step.state.state == Flat && step.state.position == NO_POSITION && step.report.trade.Some?
      && var (t, open, held) := (step.report.trade.value, st.openTrade.value, st.position);
         var (umc, ccf) := if ClosesAtClose(reason) then (m.bar.umcTwdFair, m.bar.ccfCloseFilled)
                           else (OpenUmcPrice(m.bar), OpenCcfPrice(m.bar));
         && t.entry == open && t.exitReason == reason && t.exitIdx == m.bar.rowIndex
         && t.exitUmc == umc && t.exitCcf == ccf
         && t.exitCosts
            == FillCosts(held.umcUnits, m.bar.umcTwdFair, held.ccfContracts, m.bar.ccfCloseFilled, setup.fees)
         && t.grossPnlTwd == PairValue(setup.fees, held, umc, ccf)
                             - PairValue(setup.fees, held, open.entryUmc, open.entryCcf)
         && t.netPnlTwd == t.grossPnlTwd - open.costs.totalFeeTwd - t.exitCosts.totalFeeTwd
         && step.state.realizedPnl == st.realizedPnl + t.grossPnlTwd - t.exitCosts.totalFeeTwd
    else
      && Unmoved(st.(state := Paused), step.state)
      && step.report.trade == None && step.report.requests == []
  }

  /** A live exit always goes out, for exactly the position held. */
  lemma LiveExitDecides(setup: Setup, st: RuntimeState, m: LiveMinute, reason: ExitReason, held: Account)
    requires Usable(setup, m.bar) && Holding(st)
    ensures var a := LiveExit(setup, st, m.bar, m.snap, reason, m.c, held);
            && a.run.Some? && a.held == a.run.value.world.held
            && AskedFor(setup, m.bar, Exit, -st.position.umcUnits, -st.position.ccfContracts, m.c, a.run.value)
            && ExitTaken(setup, st, m, reason, a.run.value.outcome, a.step)
  {
    hide Protocol, FillCosts, RecordedPlan, PairOrderRequests, AskedFor, BookExit, ExitTaken, UnrealizedPnl, WellFormed;
    AskedExit(setup, st, m, reason, held);
    var costs := FillCosts(st.position.umcUnits, m.bar.umcTwdFair, st.position.ccfContracts, m.bar.ccfCloseFilled,
                           setup.fees);
    var requests := ExitRequests(setup, m.bar, st.position, costs);
    var plan := RecordedPlan(Exit, st.direction.value, requests, m.c);
    UnfilledPauses(m.c.tape, m.c.tolerances, plan, StartOfRun(m.c.now, held));
    BookedExitTaken(setup, st, m, reason, LiveExit(setup, st, m.bar, m.snap, reason, m.c, held).run.value.outcome,
                    requests);
  }

  lemma AskedExit(setup: Setup, st: RuntimeState, m: LiveMinute, reason: ExitReason, held: Account)
    requires Usable(setup, m.bar) && Holding(st)
    ensures var a := LiveExit(setup, st, m.bar, m.snap, reason, m.c, held);
            && a.run.Some?
            && AskedFor(setup, m.bar, Exit, -st.position.umcUnits, -st.position.ccfContracts, m.c, a.run.value)
  {
    hide Protocol, FillCosts, RecordedPlan, PairOrderRequests, AskedFor, BookExit;
    var costs := FillCosts(st.position.umcUnits, m.bar.umcTwdFair, st.position.ccfContracts, m.bar.ccfCloseFilled,
                           setup.fees);
    PairIsAskedFor(setup, m.bar, Exit, st.direction.value, -st.position.umcUnits, -st.position.ccfContracts,
                   m.bar.umcTwdFair, m.bar.ccfCloseFilled, costs, m.c, held);
  }

  lemma BookedExitTaken(setup: Setup, st: RuntimeState, m: LiveMinute, reason: ExitReason, outcome: Outcome,
                        requests: seq<OrderRequest>)
    requires Usable(setup, m.bar) && Holding(st)
    requires outcome.status != Filled ==> outcome.recommended == Some(Paused)
    ensures var costs := FillCosts(st.position.umcUnits, m.bar.umcTwdFair, st.position.ccfContracts,
                                   m.bar.ccfCloseFilled, setup.fees);
            ExitTaken(setup, st, m, reason, outcome,
                      BookExit(setup, st, m.bar, m.snap, outcome, costs, requests, reason))
  {
    var costs := FillCosts(st.position.umcUnits, m.bar.umcTwdFair, st.position.ccfContracts, m.bar.ccfCloseFilled,
                           setup.fees);
    GrossIsValue(setup, st, m.bar, m.snap, costs, reason);
    hide FillCosts, PairValue, UnrealizedPnl;
  }

  // ---------------------------------------------------------------- the minute

  /** Every minute between orders: a fresh signal or nothing, as the score calls it. */
  lemma SignalMinute(setup: Setup, st: RuntimeState, m: LiveMinute)
    requires LiveReady(setup, st, m) && WellFormed(st) && st.state !in {EntryPending, ExitPending} && m.forced.None?
    ensures var step := StrategyModel.OnBar(setup, st, m.bar, m.snap);
            if EntryDue(setup, st, m) then Pended(st, m.bar, m.snap, DirectionDue(setup, st, m), step)
            else if ExitDue(setup, st, m) then ExitPended(st, m.bar, m.snap, step)
            else Idle(st, step)
  {
    OnBarAnswers(setup, st, m.bar, m.snap);
    hide StrategyModel.OnBar, BarLaws.Closed, CallsEntry, CallsExit;
  }

  /** The state an entry is taken from: as it was pended, or pended by this minute. */
  function Entering(setup: Setup, st: RuntimeState, m: LiveMinute): RuntimeState {
    if st.state == EntryPending then st
    else st.(state := EntryPending,
             candidate := Candidate(Some(DirectionDue(setup, st, m)), m.bar.rowIndex, Some(m.bar.timestamp),
                                    m.snap.zscore))
  }

  /** The state an exit is taken from: as it is, or marked by this minute's signal. */
  function Exiting(st: RuntimeState, m: LiveMinute): RuntimeState {
    if m.forced.Some? || st.state == ExitPending then st
    else st.(state := ExitPending, exitMark := ExitMark(m.bar.rowIndex, Some(m.bar.timestamp), m.snap.zscore))
  }

  /** What the strategy makes of the minute's outcome, had it ended in state s. */
  predicate Taken(setup: Setup, st: RuntimeState, m: LiveMinute, outcome: Outcome, step: Step, s: StrategyState)
    requires Usable(setup, m.bar) && WellFormed(st) && (m.forced.Some? ==> st.direction.Some?)
  {
    var ended := step.(state := step.state.(state := s));
    if ExitDue(setup, st, m) then ExitTaken(setup, Exiting(st, m), m, ReasonDue(m), outcome, ended)
    else
      Entering(setup, st, m).candidate.direction.Some? && EntryTaken(setup, Entering(setup, st, m), m, outcome, ended)
  }

  /** Which orders a minute asks for, if any. */
  ghost predicate Asked(setup: Setup, st: RuntimeState, m: LiveMinute, run: Run)
    requires Usable(setup, m.bar)
  {
    if ExitDue(setup, st, m)
    then AskedFor(setup, m.bar, Exit, -st.position.umcUnits, -st.position.ccfContracts, m.c, run)
    else EntryAsked(setup, DirectionDue(setup, st, m), m, run)
  }

  /** A minute's account of itself, before reconciliation has its say. */
  ghost predicate Decided(setup: Setup, st: RuntimeState, m: LiveMinute, held: Account, a: Attempted)
    requires Usable(setup, m.bar) && WellFormed(st) && (m.forced.Some? ==> st.direction.Some?)
  {
    && (a.run.Some? <==> ExitDue(setup, st, m) || (EntryDue(setup, st, m) && EntryMayGo(setup, st, m)))
    && (a.run.None? ==> a.held == held && if EntryDue(setup, st, m) then Cancelled(st, a.step) else Idle(st, a.step))
    && (a.run.Some? ==>
          && a.held == a.run.value.world.held && Asked(setup, st, m, a.run.value)
          && Taken(setup, st, m, a.run.value.outcome, a.step, a.step.state.state))
  }

  lemma ExitDecides(setup: Setup, st: RuntimeState, m: LiveMinute, held: Account, from: RuntimeState)
    requires LiveReady(setup, st, m) && WellFormed(st) && ExitDue(setup, st, m)
    requires Unmoved(Exiting(st, m), from)
    ensures Holding(from)
    ensures Decided(setup, st, m, held, LiveExit(setup, from, m.bar, m.snap, ReasonDue(m), m.c, held))
  {
    hide LiveExit, AskedFor, CallsEntry, CallsExit, EntryTaken, EntryAsked, PairValue, FillCosts;
    assert Holding(from);
    LiveExitDecides(setup, from, m, ReasonDue(m), held);
  }

  lemma EntryDecides(setup: Setup, st: RuntimeState, m: LiveMinute, held: Account, from: RuntimeState)
    requires LiveReady(setup, st, m) && WellFormed(st) && EntryDue(setup, st, m)
    requires Unmoved(Entering(setup, st, m), from)
    ensures Decided(setup, st, m, held, EnterUnlessBlocked(setup, from, m, held))
  {
    hide EnterUnlessBlocked, AskedFor, CallsEntry, CallsExit, ExitTaken, EntryAsked, PairValue, FillCosts, InTime,
         WorthTrading, SizingFromFills;
    assert WellFormed(from) && from.state == EntryPending && !ExitDue(setup, st, m);
    LiveEntryDecides(setup, from, m, held);
    assert EntryMayGo(setup, from, m) <==> EntryMayGo(setup, st, m);
  }

  lemma TradedDecides(setup: Setup, st: RuntimeState, m: LiveMinute, held: Account)
    requires LiveReady(setup, st, m) && WellFormed(st)
    ensures Decided(setup, st, m, held, Traded(setup, st, m, held))
  {
    hide LiveEntry, LiveExit, EnterUnlessBlocked, StrategyModel.OnBar, Asked, EntryMayGo, CallsEntry, CallsExit, Taken;
    if m.forced.Some? || st.state == ExitPending {
      ExitDecides(setup, st, m, held, st);
    } else if st.state == EntryPending {
      EntryDecides(setup, st, m, held, st);
    } else {
      SignalMinute(setup, st, m);
      var step := StrategyModel.OnBar(setup, st, m.bar, m.snap);
      if EntryDue(setup, st, m) {
        EntryDecides(setup, st, m, held, step.state);
      } else if ExitDue(setup, st, m) {
        ExitDecides(setup, st, m, held, step.state);
      }
    }
  }

  /**
   What a live minute does, exactly. It asks for an exit when one is due, whatever else is signalled, for an entry when
   one is due and may go, and for nothing otherwise; an entry that may not go is cancelled, and a minute that calls for
   nothing moves nothing. What was asked for is what the venues see, the outcome is taken as it comes, and a confirmed
   mismatch after trading pauses whatever the outcome was.
   */
  lemma MinuteDecides(setup: Setup, st: RuntimeState, m: LiveMinute, held: Account)
    requires LiveReady(setup, st, m) && WellFormed(st)
    ensures var a := HandleBar(setup, st, m, held);
            && (a.run.Some? <==> ExitDue(setup, st, m) || (EntryDue(setup, st, m) && EntryMayGo(setup, st, m)))
            && (a.run.None? ==>
                  a.held == held && if EntryDue(setup, st, m) then Cancelled(st, a.step) else Idle(st, a.step))
            && (a.run.Some? ==>
                  && a.held == a.run.value.world.held && Asked(setup, st, m, a.run.value)
                  && (m.mismatchConfirmed ==>
                        a.step.state.state == Paused && a.step.report.reason == "post_trade_reconciliation_mismatch")
                  && exists s :: Taken(setup, st, m, a.run.value.outcome, a.step, s)
                                 && a.step.state.state == if m.mismatchConfirmed then Paused else s)
  {
    TradedDecides(setup, st, m, held);
    hide Traded, Asked, EntryMayGo, ExitDue, EntryDue;
    var (t, a) := (Traded(setup, st, m, held), HandleBar(setup, st, m, held));
    if a.run.Some? {
      TakenAlike(setup, st, m, t.run.value.outcome, t.step, a.step, t.step.state.state);
    }
  }

  lemma TakenAlike(setup: Setup, st: RuntimeState, m: LiveMinute, outcome: Outcome, step: Step, other: Step,
                   s: StrategyState)
    requires LiveReady(setup, st, m) && WellFormed(st) && Taken(setup, st, m, outcome, step, s)
    requires other.state == step.state.(state := other.state.state)
    requires other.report.trade == step.report.trade && other.report.requests == step.report.requests
    ensures Taken(setup, st, m, outcome, other, s)
  {
    hide ExitDue, FillCosts, PairValue, SizingFromFills;
  }

  /** With the entry gate closed no order ever carries an entry, and a pending one is gone after the minute. */
  lemma ClosedGateSendsNoEntry(setup: Setup, st: RuntimeState, m: LiveMinute, held: Account)
    requires LiveReady(setup, st, m) && WellFormed(st) && m.entryBlocked
    ensures var a := HandleBar(setup, st, m, held);
            && (a.run.Some? ==> forall d :: d in a.run.value.world.sent && !d.emergency ==> d.planType == Exit)
            && (st.state == EntryPending && m.forced.None? ==> a.run.None? && a.step.state.state == Flat)
  {
    hide HandleBar, Taken, AskedFor, EntryAsked, CallsExit, CallsEntry, InTime, WorthTrading;
    MinuteDecides(setup, st, m, held);
    var a := HandleBar(setup, st, m, held);
    if a.run.Some? {
      assert ExitDue(setup, st, m);
      OnlyAskedGoesOut(setup, m.bar, Exit, -st.position.umcUnits, -st.position.ccfContracts, m.c, a.run.value);
    }
  }

  lemma OnlyAskedGoesOut(setup: Setup, bar: MarketBar, planType: PlanType, umcUnits: real, ccfContracts: int,
                         c: Circumstances, run: Run)
    requires AskedFor(setup, bar, planType, umcUnits, ccfContracts, c, run)
    ensures forall d :: d in run.world.sent && !d.emergency ==> d.planType == planType
  {
  }
}
