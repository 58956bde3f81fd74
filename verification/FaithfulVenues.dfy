/** Venues that answer truthfully and fill everything they can: every sendable plan fills on some. */
module FaithfulVenues {
  import opened Models
  import opened Intent
  import opened Coordinator
  import opened Exposure
  import opened ExecutedPosition
  import opened LiveExecution

  /** A report of everything the venue could deliver of a leg. */
  function FullReport(leg: ExecutionLeg): Outcome {
    Outcome(Filled, [FullFill(leg)], None)
  }

  function FullFill(leg: ExecutionLeg): Fill {
    Fill(Venue(""), Venue(""), leg.broker, leg.symbol, leg.side, Deliverable(leg), leg.price, leg.feeTwd, 0, 0)
  }

  function FullMove(leg: ExecutionLeg): real {
    leg.side.Sign() * Deliverable(leg)
  }

  /** What a leg's venue holds before the plan: nothing before an entry, what is to be closed before an exit. */
  function Before(planType: PlanType, leg: ExecutionLeg): real {
    if planType == Exit then -(leg.side.Sign() * leg.quantity) else 0.0
  }

  function OpeningOf(plan: PairExecutionPlan): Account
    requires |plan.legs| == 2
  {
    Account(Before(plan.planType, CcfLeg(plan)), Before(plan.planType, UmcLeg(plan)))
  }

  /**
   Venues nobody else trades at, that answer each leg's query with what they hold; the fifth call fills CCF and every
   other one UMC, in whole shares.
   */
  function FaithfulTape(plan: PairExecutionPlan): Tape
    requires |plan.legs| == 2
  {
    (i: nat) =>
      var leg := if i == 4 then CcfLeg(plan) else UmcLeg(plan);
      Beat(0.0, 0.0, FullMove(leg), Returned(FullReport(leg)), Answer(OpeningOf(plan).Of(plan.legs[i % 2].broker)))
  }

  predicate Untouched(w: World, now: nat, opening: Account) {
    w.now == now && w.held == opening && w.sent == [] && forall r :: r in w.readings ==> TruthfulReading(r)
  }

  lemma {:induction false} FaithfulReadings(plan: PairExecutionPlan, n: nat, w: World)
    requires |plan.legs| == 2 && n <= 2 && w.now % 2 == 0 && Untouched(w, w.now, OpeningOf(plan))
    ensures Untouched(Guard(FaithfulTape(plan), map[], plan, n, w).1, w.now + n, OpeningOf(plan))
    ensures Untouched(Observe(FaithfulTape(plan), plan, n, w).1, w.now + n, OpeningOf(plan))
  {
    hide CheckPosition, OpeningOf, FullMove, FullReport;
    if n > 0 {
      FaithfulReadings(plan, n - 1, w);
    }
  }

  /** Every leg is clear on such venues. */
  lemma FaithfulClears(plan: PairExecutionPlan)
    requires Sendable(plan)
    ensures AllClear(FaithfulTape(plan), map[], plan, 0)
  {
    hide FullMove, FullReport;
    assert plan.legs[0].broker != plan.legs[1].broker;
  }

  lemma FullReportIsHonest(leg: ExecutionLeg, planType: PlanType)
    requires leg.price > 0.0 && Deliverable(leg) > 0.0
    ensures var d := Dispatch(leg, planType, false, false, FullReport(leg), FullMove(leg));
            Honest(d) && d.moved == ReportedMove(d)
  {
    var fills := [FullFill(leg)];
    assert fills[1..] == [];
    assert FilledQuantity(fills, leg.broker, leg.symbol) == Deliverable(leg);
    assert SignedQuantity(fills, leg.broker, leg.symbol) == FullMove(leg);
    assert leg.broker == IbkrUmc ==> Deliverable(leg).Floor == WholeShares(leg.quantity);
  }

  lemma FaithfulSends(plan: PairExecutionPlan, w: World)
    requires Sendable(plan) && Untouched(w, 4, OpeningOf(plan))
    ensures var (ccfLeg, umcLeg, tape) := (CcfLeg(plan), UmcLeg(plan), FaithfulTape(plan));
            var (ccf, w1) := Send(tape, ccfLeg, plan.planType, false, w);
            var (umc, w2) := Send(tape, umcLeg, plan.planType, false, w1);
            && ccf == FullReport(ccfLeg) && umc == FullReport(umcLeg) && w2.readings == w.readings
            && w2.sent == [Dispatch(ccfLeg, plan.planType, false, false, ccf, FullMove(ccfLeg)),
                           Dispatch(umcLeg, plan.planType, false, false, umc, FullMove(umcLeg))]
            && w2.held == Account(w.held.ccf + FullMove(ccfLeg), w.held.umc + FullMove(umcLeg))
  {
    LegVenues(plan);
    hide FullMove, OpeningOf, CcfLeg, UmcLeg;
  }

  /** Two full reports, both moves on the books, and nothing to alarm anyone. */
  predicate FilledInFull(plan: PairExecutionPlan, run: Run)
    requires |plan.legs| == 2
  {
    var (ccfLeg, umcLeg, opening) := (CcfLeg(plan), UmcLeg(plan), OpeningOf(plan));
    && run.outcome.status == Filled && run.events == []
    && run.world.sent == [Dispatch(ccfLeg, plan.planType, false, false, FullReport(ccfLeg), FullMove(ccfLeg)),
                          Dispatch(umcLeg, plan.planType, false, false, FullReport(umcLeg), FullMove(umcLeg))]
    && run.world.held == Account(opening.ccf + FullMove(ccfLeg), opening.umc + FullMove(umcLeg))
    && forall r :: r in run.world.readings ==> TruthfulReading(r)
  }

  lemma FaithfulAfterGuard(plan: PairExecutionPlan, w: World)
    requires Sendable(plan) && Untouched(Observe(FaithfulTape(plan), plan, 2, w).1, 4, OpeningOf(plan))
    ensures FilledInFull(plan, AfterGuard(FaithfulTape(plan), map[], plan, CcfLeg(plan), UmcLeg(plan), w))
  {
    assert |plan.legs| == 2;
    hide Observe, Send, FullReport, FullMove, OpeningOf, FaithfulTape, AfterSecondFailure, AfterFirstFailure, CcfLeg,
         UmcLeg, AfterGuard, LivePlanOk, TruthfulReading, Deliverable, FilledInFull, Conserved, NoDrift;
    var w1 := Observe(FaithfulTape(plan), plan, 2, w).1;
    FaithfulSends(plan, w1);
    FullIsFilled(CcfLeg(plan));
    FullIsFilled(UmcLeg(plan));
    BothFilled(FaithfulTape(plan), plan, CcfLeg(plan), UmcLeg(plan), w);
    Assembled(plan, AfterGuard(FaithfulTape(plan), map[], plan, CcfLeg(plan), UmcLeg(plan), w), w1);
  }

  lemma Assembled(plan: PairExecutionPlan, run: Run, before: World)
    requires |plan.legs| == 2 && Untouched(before, 4, OpeningOf(plan)) && run.world.readings == before.readings
    requires run.outcome.status == Filled && run.events == []
    requires var (ccfLeg, umcLeg) := (CcfLeg(plan), UmcLeg(plan));
             && run.world.sent == [Dispatch(ccfLeg, plan.planType, false, false, FullReport(ccfLeg), FullMove(ccfLeg)),
                                   Dispatch(umcLeg, plan.planType, false, false, FullReport(umcLeg), FullMove(umcLeg))]
             && run.world.held == Account(before.held.ccf + FullMove(ccfLeg), before.held.umc + FullMove(umcLeg))
    ensures FilledInFull(plan, run)
  {
    hide FullReport, FullMove, OpeningOf, CcfLeg, UmcLeg, TruthfulReading;
  }

  /** Two FILLED replies end the run on the spot. */
  lemma BothFilled(tape: Tape, plan: PairExecutionPlan, ccfLeg: ExecutionLeg, umcLeg: ExecutionLeg, w: World)
    requires |plan.legs| == 2
    requires var (ccf, w2) := Send(tape, ccfLeg, plan.planType, false, Observe(tape, plan, 2, w).1);
             ccf.status == Filled && Send(tape, umcLeg, plan.planType, false, w2).0.status == Filled
    ensures var (_, w2) := Send(tape, ccfLeg, plan.planType, false, Observe(tape, plan, 2, w).1);
            var (_, w3) := Send(tape, umcLeg, plan.planType, false, w2);
            var run := AfterGuard(tape, map[], plan, ccfLeg, umcLeg, w);
            run.outcome.status == Filled && run.events == [] && run.world == w3
  {
    hide Observe, Send, AfterFirstFailure, AfterSecondFailure;
  }

  /** A plan whose legs are all clear goes on past the guard. */
  lemma ClearGoesOn(tape: Tape, plan: PairExecutionPlan, w: World)
    requires Sendable(plan) && AllClear(tape, map[], plan, w.now)
    ensures Protocol(tape, map[], plan, w)
         == AfterGuard(tape, map[], plan, CcfLeg(plan), UmcLeg(plan), Guard(tape, map[], plan, 2, w).1)
  {
    LivePlanHasBothLegs(plan, true);
    GuardPassesExactlyWhen(tape, map[], plan, 2, w);
    hide Guard, AfterGuard, Clears;
  }

  lemma FaithfulRun(plan: PairExecutionPlan)
    requires Sendable(plan)
    ensures FilledInFull(plan, Protocol(FaithfulTape(plan), map[], plan, StartOfRun(0, OpeningOf(plan))))
  {
    hide Guard, Observe, OpeningOf, FaithfulTape, Clears, AfterGuard, Protocol, FilledInFull;
    var start := StartOfRun(0, OpeningOf(plan));
    FaithfulClears(plan);
    FaithfulReadings(plan, 2, start);
    var w1 := Guard(FaithfulTape(plan), map[], plan, 2, start).1;
    ClearGoesOn(FaithfulTape(plan), plan, start);
    FaithfulReadings(plan, 2, w1);
    FaithfulAfterGuard(plan, w1);
  }

  /**
   On such venues any sendable plan of at least one share fills, entry or exit, fraction and all, and its run is
   transparent: an entry leaves the lots and whole shares it asked for, an exit the fraction of a share it cannot send.
   */
  lemma FaithfulPlanFills(plan: PairExecutionPlan)
    requires Sendable(plan) && UmcLeg(plan).quantity >= 1.0
    requires CcfLeg(plan).price > 0.0 && UmcLeg(plan).price > 0.0
    ensures var run := Protocol(FaithfulTape(plan), map[], plan, StartOfRun(0, OpeningOf(plan)));
            && NoDrift(FaithfulTape(plan)) && Transparent(run) && !NeedsHuman(run) && run.outcome.status == Filled
            && (plan.planType == Entry ==>
                  && run.world.held.ccf == CcfLeg(plan).side.Sign() * CcfLeg(plan).quantity
                  && Abs(run.world.held.umc) == WholeShares(UmcLeg(plan).quantity) as real)
            && (plan.planType == Exit ==> run.world.held.ccf == 0.0 && Abs(run.world.held.umc) < 1.0)
  {
    hide Protocol, FullReport, FullMove, OpeningOf, Transparent, FaithfulTape, CcfLeg, UmcLeg, FilledInFull, NoDrift,
         NeedsHuman, WholeShares;
    FaithfulRun(plan);
    FilledInFullIsTransparent(plan, Protocol(FaithfulTape(plan), map[], plan, StartOfRun(0, OpeningOf(plan))));
    MovesFromOpening(plan);
  }

  lemma FilledInFullIsTransparent(plan: PairExecutionPlan, run: Run)
    requires Sendable(plan) && UmcLeg(plan).quantity >= 1.0 && FilledInFull(plan, run)
    requires CcfLeg(plan).price > 0.0 && UmcLeg(plan).price > 0.0
    ensures Transparent(run) && !NeedsHuman(run) && NoDrift(FaithfulTape(plan)) && run.outcome.status == Filled
    ensures run.world.held == Account(OpeningOf(plan).ccf + FullMove(CcfLeg(plan)),
                                      OpeningOf(plan).umc + FullMove(UmcLeg(plan)))
  {
    LegVenues(plan);
    FullReportIsHonest(CcfLeg(plan), plan.planType);
    FullReportIsHonest(UmcLeg(plan), plan.planType);
    hide FullReport, FullMove, Honest, ReportedMove, OpeningOf, CcfLeg, UmcLeg;
  }

  lemma MovesFromOpening(plan: PairExecutionPlan)
    requires Sendable(plan) && UmcLeg(plan).quantity >= 1.0
    ensures var (ccf, umc, opening) := (CcfLeg(plan), UmcLeg(plan), OpeningOf(plan));
            && (plan.planType == Entry ==>
                  && opening.ccf + FullMove(ccf) == ccf.side.Sign() * ccf.quantity
                  && Abs(opening.umc + FullMove(umc)) == WholeShares(umc.quantity) as real)
            && (plan.planType == Exit ==>
                  opening.ccf + FullMove(ccf) == 0.0 && Abs(opening.umc + FullMove(umc)) < 1.0)
  {
    LegVenues(plan);
    hide CcfLeg, UmcLeg;
  }

  lemma FullIsFilled(leg: ExecutionLeg)
    ensures FullReport(leg).status == Filled
    ensures leg.broker == IbkrUmc ==> Abs(FullMove(leg)) == WholeShares(leg.quantity) as real
  {
  }
}
