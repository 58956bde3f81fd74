/** Exposure safety of the two-leg protocol, for every tape of broker behaviour. */
module Exposure {
  import opened Models
  import opened Intent
  import opened Coordinator

  /** The shares sent for a fractional quantity: truncated toward zero, so the fraction is never traded. */
  function WholeShares(quantity: real): nat {
    Abs(quantity).Floor
  }

  /** What a venue can fill of a leg: every lot of CCF, the whole shares of UMC. */
  function Deliverable(leg: ExecutionLeg): real {
    if leg.broker == FubonCcf then leg.quantity else WholeShares(leg.quantity) as real
  }

  /**
   The adapter contract: fills belong to the leg, UMC reports whole shares, and FILLED accounts for everything the venue
   could deliver, which is never nothing.
   */
  predicate Honest(d: Dispatch) {
    && (forall f :: f in d.outcome.fills ==>
          f.On(d.leg.broker, d.leg.symbol) && f.side == d.leg.side && f.quantity > 0.0 && f.price > 0.0)
    && (d.leg.broker == IbkrUmc ==> IsWhole(LegFilled(d.outcome, d.leg)))
    && (d.outcome.status == Filled ==> LegFilled(d.outcome, d.leg) == Deliverable(d.leg) > 0.0)
  }

  predicate AllHonest(sent: seq<Dispatch>) {
    forall d :: d in sent ==> Honest(d)
  }

  function ReportedMove(d: Dispatch): real {
    SignedQuantity(d.outcome.fills, d.leg.broker, d.leg.symbol)
  }

  function ReportedMoves(sent: seq<Dispatch>, broker: BrokerName): real {
    if sent == [] then 0.0
    else
      var last := sent[|sent| - 1];
      ReportedMoves(sent[..|sent| - 1], broker) + if last.leg.broker == broker then ReportedMove(last) else 0.0
  }

  /** What our orders did at the venue and nobody reported. */
  function UnreportedMoves(sent: seq<Dispatch>, broker: BrokerName): real {
    if sent == [] then 0.0
    else
      var last := sent[|sent| - 1];
      UnreportedMoves(sent[..|sent| - 1], broker)
      + if last.leg.broker == broker then last.moved - ReportedMove(last) else 0.0
  }

  /** A truthful adapter: whenever it returns, its fills are exactly the movement. It may still raise. */
  predicate TruthfulAdapter(d: Dispatch) {
    !d.raised ==> d.moved == ReportedMove(d)
  }

  predicate TruthfulReading(r: Reading) {
    r.reply.Answer? ==> r.reply.quantity == r.held
  }

  ghost predicate Sendable(plan: PairExecutionPlan) {
    plan.status == Recorded && LivePlanOk(plan, true)
  }

  function CcfLeg(plan: PairExecutionPlan): ExecutionLeg
    requires |plan.legs| == 2
  {
    if plan.legs[0].broker == FubonCcf then plan.legs[0] else plan.legs[1]
  }

  function UmcLeg(plan: PairExecutionPlan): ExecutionLeg
    requires |plan.legs| == 2
  {
    if plan.legs[0].broker == IbkrUmc then plan.legs[0] else plan.legs[1]
  }

  // ---------------------------------------------------------------- sums over dispatches

  lemma {:induction false} TrueIsReportedPlusUnreported(sent: seq<Dispatch>, broker: BrokerName)
    ensures TrueMoves(sent, broker) == ReportedMoves(sent, broker) + UnreportedMoves(sent, broker)
  {
    if sent != [] {
      TrueIsReportedPlusUnreported(sent[..|sent| - 1], broker);
    }
  }

  function Share(sent: seq<Dispatch>, i: nat, broker: BrokerName): real {
    if i < |sent| && sent[i].leg.broker == broker then ReportedMove(sent[i]) else 0.0
  }

  function TrueShare(sent: seq<Dispatch>, i: nat, broker: BrokerName): real {
    if i < |sent| && sent[i].leg.broker == broker then sent[i].moved else 0.0
  }

  lemma {:induction false} FourShares(sent: seq<Dispatch>, broker: BrokerName)
    requires |sent| <= 4
    ensures ReportedMoves(sent, broker)
            == Share(sent, 0, broker) + Share(sent, 1, broker) + Share(sent, 2, broker) + Share(sent, 3, broker)
    ensures TrueMoves(sent, broker)
            == TrueShare(sent, 0, broker) + TrueShare(sent, 1, broker) + TrueShare(sent, 2, broker)
               + TrueShare(sent, 3, broker)
  {
    if sent != [] {
      var front := sent[..|sent| - 1];
      FourShares(front, broker);
      assert forall i: nat :: i < |front| ==> Share(front, i, broker) == Share(sent, i, broker)
                                              && TrueShare(front, i, broker) == TrueShare(sent, i, broker);
    }
  }

  function Outcomes(sent: seq<Dispatch>): seq<Outcome> {
    seq(|sent|, i requires 0 <= i < |sent| => sent[i].outcome)
  }

  /** Summing every fill of every honest order on an instrument gives the venue's reported moves. */
  lemma {:induction false} FillsSumToReportedMoves(sent: seq<Dispatch>, broker: BrokerName, symbol: string)
    requires AllHonest(sent)
    requires forall d :: d in sent && d.leg.broker == broker ==> d.leg.symbol == symbol
    ensures SignedQuantity(AllFills(Outcomes(sent)), broker, symbol) == ReportedMoves(sent, broker)
  {
    if sent != [] {
      var front, last := sent[..|sent| - 1], sent[|sent| - 1];
      assert Outcomes(sent)[..|sent| - 1] == Outcomes(front);
      FillsSumToReportedMoves(front, broker, symbol);
      SignedQuantityConcat(AllFills(Outcomes(front)), last.outcome.fills, broker, symbol);
      assert last in sent;
      if last.leg.broker != broker {
        ForeignFills(last.outcome.fills, broker, symbol);
      }
    }
  }

  lemma HonestReport(d: Dispatch)
    requires Honest(d)
    ensures ReportedMove(d) == d.leg.side.Sign() * LegFilled(d.outcome, d.leg)
    ensures LegFilled(d.outcome, d.leg) >= 0.0
  {
    OneSidedFills(d.outcome.fills, d.leg.broker, d.leg.symbol, d.leg.side);
    FilledQuantityNonNegative(d.outcome.fills, d.leg.broker, d.leg.symbol);
  }

  // ---------------------------------------------------------------- what gets sent

  /** The emergency order for a primary one: its instrument, its reported fill, the other side and plan type. */
  predicate Reverses(emergency: Dispatch, primary: Dispatch) {
    && emergency.emergency && !primary.emergency
    && emergency.leg == primary.leg.(side := primary.leg.side.Reverse(),
                                     quantity := LegFilled(primary.outcome, primary.leg), feeTwd := 0.0)
    && emergency.planType == primary.planType.Opposite()
    && LegFilled(primary.outcome, primary.leg) > 0.0
  }

  /**
   The only conversations the protocol can have with the venues: nothing, CCF alone, CCF with its reversal,
   or CCF filled and then UMC, after which the CCF reversal may follow, and the UMC reversal only after that.
   */
  predicate Orderly(plan: PairExecutionPlan, sent: seq<Dispatch>)
    requires |plan.legs| == 2
  {
    && |sent| <= 4
    && (|sent| >= 1 ==> sent[0].leg == CcfLeg(plan) && sent[0].planType == plan.planType && !sent[0].emergency)
    && (|sent| >= 2 && sent[0].outcome.status != Filled ==> |sent| == 2 && Reverses(sent[1], sent[0]))
    && (|sent| >= 2 && sent[0].outcome.status == Filled ==>
          sent[1].leg == UmcLeg(plan) && sent[1].planType == plan.planType && !sent[1].emergency)
    && (|sent| >= 3 ==>
          sent[0].outcome.status == Filled && sent[1].outcome.status != Filled
          && Reverses(sent[2], sent[0]))
    && (|sent| >= 4 ==> Reverses(sent[3], sent[1]))
  }

  predicate NeedsHuman(run: Run) {
    CriticalManualInterventionRequired in run.events
  }

  lemma UnwindOne(tape: Tape, plan: PairExecutionPlan, leg: ExecutionLeg, quantity: real, w: World)
    ensures var emergency := EmergencyClosePlan(plan, leg, quantity);
            var (outcome, after) := Send(tape, emergency.legs[0], emergency.planType, true, w);
            var (outcomes, events, w') := Unwind(tape, plan, [(leg, quantity)], w);
            && outcomes == [outcome] && w' == after
            && (CriticalManualInterventionRequired in events <==> outcome.status != Filled)
            && ImbalancedPairExposure !in events
  {
    var exposed := [(leg, quantity)];
    assert exposed[..0] == [];
  }

  lemma UnwindTwo(tape: Tape, plan: PairExecutionPlan, first: Exposed, second: Exposed, w: World)
    ensures var (outs1, events1, w1) := Unwind(tape, plan, [first], w);
            var emergency := EmergencyClosePlan(plan, second.0, second.1);
            var (outcome, after) := Send(tape, emergency.legs[0], emergency.planType, true, w1);
            var (outcomes, events, w') := Unwind(tape, plan, [first, second], w);
            && outcomes == outs1 + [outcome] && w' == after
            && (CriticalManualInterventionRequired in events
                <==> CriticalManualInterventionRequired in events1 || outcome.status != Filled)
  {
    assert [first, second][..1] == [first];
  }

  predicate UnfilledEmergency(sent: seq<Dispatch>, i: nat) {
    i < |sent| && sent[i].emergency && sent[i].outcome.status != Filled
  }

  /** The protocol stage by stage: what it sent, that it reports all of it, and when it asks for a human. */
  ghost predicate Accounted(plan: PairExecutionPlan, run: Run)
    requires |plan.legs| == 2
  {
    var sent := run.world.sent;
    && Orderly(plan, sent)
    && Conserved(run.world)
    && run.outcome.fills == AllFills(Outcomes(sent))
    && (run.outcome.status != Filled <==> run.outcome.recommended == Some(Paused))
    && (run.outcome.status == Filled <==>
          |sent| == 2 && sent[0].outcome.status == Filled && sent[1].outcome.status == Filled)
    && (NeedsHuman(run) <==>
          || UnfilledEmergency(sent, 1) || UnfilledEmergency(sent, 2) || UnfilledEmergency(sent, 3)
          || (|sent| == 2 && sent[0].outcome.status == Filled && sent[1].outcome.status != Filled))
    && (|sent| == 1 && AllHonest(sent) ==>
          sent[0].outcome.status != Filled && LegFilled(sent[0].outcome, sent[0].leg) == 0.0)
    && (|sent| == 3 && AllHonest(sent) ==> LegFilled(sent[1].outcome, sent[1].leg) == 0.0)
    && (ImbalancedPairExposure in run.events <==> |sent| == 4)
  }

  /** CCF has answered, and not with a complete fill. */
  ghost predicate FirstUnfilled(plan: PairExecutionPlan, w: World)
    requires |plan.legs| == 2
  {
    && Conserved(w) && |w.sent| == 1 && w.sent[0].outcome.status != Filled
    && w.sent[0].leg == CcfLeg(plan) && w.sent[0].planType == plan.planType && !w.sent[0].emergency
  }

  lemma FirstFailureAccounted(tape: Tape, plan: PairExecutionPlan, w: World)
    requires Sendable(plan) && FirstUnfilled(plan, w)
    ensures Accounted(plan, AfterFirstFailure(tape, plan, CcfLeg(plan), w.sent[0].outcome, w))
  {
    if LegFilled(w.sent[0].outcome, CcfLeg(plan)) > 0.0 {
      PartialReversedAccounted(tape, plan, w);
    } else {
      NothingFilledAccounted(plan, w);
    }
  }

  lemma NothingFilledAccounted(plan: PairExecutionPlan, w: World)
    requires Sendable(plan) && FirstUnfilled(plan, w)
    requires !(LegFilled(w.sent[0].outcome, CcfLeg(plan)) > 0.0)
    ensures Accounted(plan, Run(Combined(w.sent[0].outcome.status, [w.sent[0].outcome], []), [], w))
  {
    assert [w.sent[0].outcome] + [] == Outcomes(w.sent);
    if AllHonest(w.sent) {
      assert w.sent[0] in w.sent;
      HonestReport(w.sent[0]);
    }
  }

  lemma PartialReversedAccounted(tape: Tape, plan: PairExecutionPlan, w: World)
    requires Sendable(plan) && FirstUnfilled(plan, w)
    requires LegFilled(w.sent[0].outcome, CcfLeg(plan)) > 0.0
    ensures var ccf := w.sent[0].outcome;
            var (emergencies, events, w') := Unwind(tape, plan, [(CcfLeg(plan), LegFilled(ccf, CcfLeg(plan)))], w);
            Accounted(plan, Run(Combined(ccf.status, [ccf], emergencies), [ExposureBreach, SingleLegExposure] + events,
                                w'))
  {
    assert |plan.legs| == 2;
    hide Honest, LegFilled, LivePlanOk;
    var ccf, leg := w.sent[0].outcome, CcfLeg(plan);
    UnwindOne(tape, plan, leg, LegFilled(ccf, leg), w);
    var (emergencies, events, w') := Unwind(tape, plan, [(leg, LegFilled(ccf, leg))], w);
    assert |w'.sent| == 2 && w'.sent[0] == w.sent[0] && Reverses(w'.sent[1], w'.sent[0]);
    assert emergencies == [w'.sent[1].outcome];
    assert [ccf] + emergencies == Outcomes(w'.sent);
  }

  lemma SecondFailureAccounted(tape: Tape, tolerances: map<BrokerName, real>, plan: PairExecutionPlan,
                               before: map<BrokerName, Option<real>>, w: World)
    requires Sendable(plan) && Conserved(w)
    requires |w.sent| == 2 && Orderly(plan, w.sent)
    requires w.sent[0].outcome.status == Filled && w.sent[1].outcome.status != Filled
    requires LegFilled(w.sent[0].outcome, CcfLeg(plan)) > 0.0
    ensures Accounted(plan, AfterSecondFailure(tape, tolerances, plan, CcfLeg(plan), UmcLeg(plan),
                                               w.sent[0].outcome, w.sent[1].outcome, before, w))
  {
    var ccf, umc := w.sent[0].outcome, w.sent[1].outcome;
    var run := AfterSecondFailure(tape, tolerances, plan, CcfLeg(plan), UmcLeg(plan), ccf, umc, before, w);
    var (moved, w1) := LegMoved(tape, tolerances, UmcLeg(plan), before, w);
    if moved != Some(false) {
      assert [ccf, umc] + [] == Outcomes(run.world.sent);
    } else if LegFilled(umc, UmcLeg(plan)) > 0.0 {
      BothReversedAccounted(tape, plan, w1);
    } else {
      CcfReversedAccounted(tape, plan, w1);
    }
  }

  ghost predicate HalfFilled(plan: PairExecutionPlan, w: World)
    requires |plan.legs| == 2
  {
    && Conserved(w) && |w.sent| == 2 && Orderly(plan, w.sent)
    && w.sent[0].outcome.status == Filled && w.sent[1].outcome.status != Filled
    && LegFilled(w.sent[0].outcome, CcfLeg(plan)) > 0.0
  }

  lemma CcfReversedAccounted(tape: Tape, plan: PairExecutionPlan, w: World)
    requires Sendable(plan) && HalfFilled(plan, w)
    requires !(LegFilled(w.sent[1].outcome, UmcLeg(plan)) > 0.0)
    ensures var ccf, umc := w.sent[0].outcome, w.sent[1].outcome;
            var (emergencies, events, w') := Unwind(tape, plan, [(CcfLeg(plan), LegFilled(ccf, CcfLeg(plan)))] + [], w);
            Accounted(plan, Run(Combined(umc.status, [ccf, umc], emergencies),
                                [ExposureBreach, SingleLegExposure] + events, w'))
  {
    var leg, quantity := CcfLeg(plan), LegFilled(w.sent[0].outcome, CcfLeg(plan));
    assert [(leg, quantity)] + [] == [(leg, quantity)];
    CcfReversalSent(tape, plan, w);
    var sent := Unwind(tape, plan, [(leg, quantity)], w).2.sent;
    assert [sent[0].outcome, sent[1].outcome] + [sent[2].outcome] == Outcomes(sent);
    if AllHonest(sent) {
      assert sent[1] in sent;
      HonestReport(sent[1]);
    }
  }

  lemma CcfReversalSent(tape: Tape, plan: PairExecutionPlan, w: World)
    requires Sendable(plan) && HalfFilled(plan, w)
    ensures var (outcomes, events, w') :=
              Unwind(tape, plan, [(CcfLeg(plan), LegFilled(w.sent[0].outcome, CcfLeg(plan)))], w);
            && |w'.sent| == 3 && w'.sent[0] == w.sent[0] && w'.sent[1] == w.sent[1] && Conserved(w')
            && Reverses(w'.sent[2], w.sent[0]) && outcomes == [w'.sent[2].outcome]
            && (CriticalManualInterventionRequired in events <==> w'.sent[2].outcome.status != Filled)
            && (w'.sent[2].outcome.status == Filled ==> !w'.sent[2].raised)
            && ImbalancedPairExposure !in events
  {
    UnwindOne(tape, plan, CcfLeg(plan), LegFilled(w.sent[0].outcome, CcfLeg(plan)), w);
  }

  lemma BothReversedAccounted(tape: Tape, plan: PairExecutionPlan, w: World)
    requires Sendable(plan) && HalfFilled(plan, w)
    requires LegFilled(w.sent[1].outcome, UmcLeg(plan)) > 0.0
    ensures var ccf, umc := w.sent[0].outcome, w.sent[1].outcome;
            var exposed := [(CcfLeg(plan), LegFilled(ccf, CcfLeg(plan)))]
              + [(UmcLeg(plan), LegFilled(umc, UmcLeg(plan)))];
            var (emergencies, events, w') := Unwind(tape, plan, exposed, w);
            Accounted(plan, Run(Combined(umc.status, [ccf, umc], emergencies),
                                [ExposureBreach, ImbalancedPairExposure] + events, w'))
  {
    var first := (CcfLeg(plan), LegFilled(w.sent[0].outcome, CcfLeg(plan)));
    var second := (UmcLeg(plan), LegFilled(w.sent[1].outcome, UmcLeg(plan)));
    assert [first] + [second] == [first, second];
    BothReversalsSent(tape, plan, w);
    var sent := Unwind(tape, plan, [first, second], w).2.sent;
    assert [sent[0].outcome, sent[1].outcome] + [sent[2].outcome, sent[3].outcome] == Outcomes(sent);
  }

  lemma BothReversalsSent(tape: Tape, plan: PairExecutionPlan, w: World)
    requires Sendable(plan) && HalfFilled(plan, w)
    requires LegFilled(w.sent[1].outcome, UmcLeg(plan)) > 0.0
    ensures var first := (CcfLeg(plan), LegFilled(w.sent[0].outcome, CcfLeg(plan)));
            var second := (UmcLeg(plan), LegFilled(w.sent[1].outcome, UmcLeg(plan)));
            var (outcomes, events, w') := Unwind(tape, plan, [first, second], w);
            && |w'.sent| == 4 && w'.sent[0] == w.sent[0] && w'.sent[1] == w.sent[1] && Conserved(w')
            && Reverses(w'.sent[2], w.sent[0]) && Reverses(w'.sent[3], w.sent[1])
            && outcomes == [w'.sent[2].outcome, w'.sent[3].outcome]
            && (CriticalManualInterventionRequired in events
                <==> w'.sent[2].outcome.status != Filled || w'.sent[3].outcome.status != Filled)
            && (w'.sent[2].outcome.status == Filled ==> !w'.sent[2].raised)
            && (w'.sent[3].outcome.status == Filled ==> !w'.sent[3].raised)
  {
    var first := (CcfLeg(plan), LegFilled(w.sent[0].outcome, CcfLeg(plan)));
    var second := (UmcLeg(plan), LegFilled(w.sent[1].outcome, UmcLeg(plan)));
    UnwindOne(tape, plan, first.0, first.1, w);
    UnwindTwo(tape, plan, first, second, w);
  }

  // ---------------------------------------------------------------- main results

  /** Every run of a sendable plan on every tape is accounted for. */
  lemma ProtocolAccounted(tape: Tape, tolerances: map<BrokerName, real>, plan: PairExecutionPlan, w: World)
    requires Sendable(plan) && Conserved(w) && w.sent == []
    requires AllHonest(Protocol(tape, tolerances, plan, w).world.sent)
    ensures Accounted(plan, Protocol(tape, tolerances, plan, w))
  {
    LivePlanHasBothLegs(plan, true);
    var (checks, w1) := Guard(tape, tolerances, plan, |plan.legs|, w);
    if GuardPassed(checks) {
      AfterGuardAccounted(tape, tolerances, plan, w1);
    }
  }

  lemma AfterGuardAccounted(tape: Tape, tolerances: map<BrokerName, real>, plan: PairExecutionPlan, w: World)
    requires Sendable(plan) && Conserved(w) && w.sent == []
    requires AllHonest(AfterGuard(tape, tolerances, plan, CcfLeg(plan), UmcLeg(plan), w).world.sent)
    ensures Accounted(plan, AfterGuard(tape, tolerances, plan, CcfLeg(plan), UmcLeg(plan), w))
  {
    var (before, w2) := Observe(tape, plan, |plan.legs|, w);
    var (ccf, w3) := Send(tape, CcfLeg(plan), plan.planType, false, w2);
    if ccf.status != Filled {
      FirstFailureAccounted(tape, plan, w3);
    } else {
      var (umc, w4) := Send(tape, UmcLeg(plan), plan.planType, false, w3);
      if umc.status == Filled {
        assert [ccf, umc] + [] == Outcomes(w4.sent);
      } else {
        SentOnlyGrows(tape, tolerances, plan, before, w4);
        var sent := AfterGuard(tape, tolerances, plan, CcfLeg(plan), UmcLeg(plan), w).world.sent;
        assert sent[0] == w4.sent[0] && sent[0] in sent;
        SecondFailureAccounted(tape, tolerances, plan, before, w4);
      }
    }
  }

  lemma SentOnlyGrows(tape: Tape, tolerances: map<BrokerName, real>, plan: PairExecutionPlan,
                      before: map<BrokerName, Option<real>>, w: World)
    requires |plan.legs| == 2 && |w.sent| == 2
    ensures w.sent <= AfterSecondFailure(tape, tolerances, plan, CcfLeg(plan), UmcLeg(plan),
                                         w.sent[0].outcome, w.sent[1].outcome, before, w).world.sent
  {
    var ccfLeg, umcLeg, ccf, umc := CcfLeg(plan), UmcLeg(plan), w.sent[0].outcome, w.sent[1].outcome;
    var w1 := LegMoved(tape, tolerances, umcLeg, before, w).1;
    var first, second := (ccfLeg, LegFilled(ccf, ccfLeg)), (umcLeg, LegFilled(umc, umcLeg));
    UnwindOne(tape, plan, first.0, first.1, w1);
    UnwindTwo(tape, plan, first, second, w1);
    assert [first] + [] == [first];
    assert [first] + [second] == [first, second];
  }

  lemma ReversalCancels(emergency: Dispatch, primary: Dispatch)
    requires Honest(emergency) && Honest(primary) && Reverses(emergency, primary)
    requires emergency.outcome.status == Filled
    ensures ReportedMove(emergency) == -ReportedMove(primary)
  {
    HonestReport(emergency);
    HonestReport(primary);
  }

  /** A run that neither filled nor asked for a human reports a net movement of zero on each venue. */
  lemma QuietFailureNets(plan: PairExecutionPlan, run: Run, broker: BrokerName)
    requires Sendable(plan) && Accounted(plan, run) && AllHonest(run.world.sent)
    requires run.outcome.status != Filled && !NeedsHuman(run)
    ensures ReportedMoves(run.world.sent, broker) == 0.0
  {
    var sent := run.world.sent;
    FourShares(sent, broker);
    if |sent| == 1 {
      assert sent[0] in sent;
      HonestReport(sent[0]);
    } else if |sent| == 2 {
      assert sent[0] in sent && sent[1] in sent;
      assert !UnfilledEmergency(sent, 1);
      ReversalCancels(sent[1], sent[0]);
    } else if |sent| >= 3 {
      assert sent[0] in sent && sent[1] in sent && sent[2] in sent;
      assert !UnfilledEmergency(sent, 2);
      ReversalCancels(sent[2], sent[0]);
      if |sent| == 4 {
        assert sent[3] in sent && !UnfilledEmergency(sent, 3);
        ReversalCancels(sent[3], sent[1]);
      } else {
        HonestReport(sent[1]);
      }
    }
  }

  /**
   Exposure safety over every path: the pair filled, or the fills the outcome reports net to zero on both instruments,
   or a human was called. Anything but a filled pair recommends PAUSED.
   */
  lemma ExposureSafety(tape: Tape, tolerances: map<BrokerName, real>, plan: PairExecutionPlan, w: World)
    requires Sendable(plan) && Conserved(w) && w.sent == []
    requires AllHonest(Protocol(tape, tolerances, plan, w).world.sent)
    ensures var run := Protocol(tape, tolerances, plan, w);
            || run.outcome.status == Filled
            || NeedsHuman(run)
            || forall leg :: leg in plan.legs ==> SignedQuantity(run.outcome.fills, leg.broker, leg.symbol) == 0.0
    ensures var run := Protocol(tape, tolerances, plan, w);
            run.outcome.status != Filled <==> run.outcome.recommended == Some(Paused)
  {
    ProtocolAccounted(tape, tolerances, plan, w);
    var run := Protocol(tape, tolerances, plan, w);
    if run.outcome.status != Filled && !NeedsHuman(run) {
      forall leg | leg in plan.legs
        ensures SignedQuantity(run.outcome.fills, leg.broker, leg.symbol) == 0.0
      {
        QuietFailureNets(plan, run, leg.broker);
        LegsCarrySymbols(plan, run.world.sent, leg);
        FillsSumToReportedMoves(run.world.sent, leg.broker, leg.symbol);
      }
    }
  }

  lemma LegsCarrySymbols(plan: PairExecutionPlan, sent: seq<Dispatch>, leg: ExecutionLeg)
    requires Sendable(plan) && Orderly(plan, sent) && leg in plan.legs
    ensures forall d :: d in sent && d.leg.broker == leg.broker ==> d.leg.symbol == leg.symbol
  {
    forall d | d in sent && d.leg.broker == leg.broker
      ensures d.leg.symbol == leg.symbol
    {
      var i :| 0 <= i < |sent| && sent[i] == d;
      assert i == 0 || i == 1 || i == 2 || i == 3;
    }
  }

  /**
   What such a quiet failure leaves behind at the venue: exactly third-party drift plus whatever our orders did
   without reporting it. The protocol restored the position if and only if nothing went unreported.
   */
  lemma QuietFailureResidual(tape: Tape, tolerances: map<BrokerName, real>, plan: PairExecutionPlan, w: World,
                             broker: BrokerName)
    requires Sendable(plan) && Conserved(w) && w.sent == []
    requires AllHonest(Protocol(tape, tolerances, plan, w).world.sent)
    requires var run := Protocol(tape, tolerances, plan, w); run.outcome.status != Filled && !NeedsHuman(run)
    ensures var after := Protocol(tape, tolerances, plan, w).world;
            after.held.Of(broker) == after.opening.Of(broker) + after.drifted.Of(broker)
              + UnreportedMoves(after.sent, broker)
  {
    ProtocolAccounted(tape, tolerances, plan, w);
    var run := Protocol(tape, tolerances, plan, w);
    QuietFailureNets(plan, run, broker);
    TrueIsReportedPlusUnreported(run.world.sent, broker);
  }

  /** Brokers that always answer "flat" while every order moves the position by `moved` and then raises. */
  function SilentTape(moved: real): Tape {
    (i: nat) => Beat(0.0, 0.0, moved, ExecRaised, Answer(0.0))
  }

  lemma FlatReadingsPassEntry(plan: PairExecutionPlan, moved: real, w: World, n: nat)
    requires plan.planType == Entry && n <= |plan.legs| && n <= 2
    ensures var (checks, after) := Guard(SilentTape(moved), map[], plan, n, w);
            GuardPassed(checks) && after.held == w.held && after.drifted == w.drifted
    ensures Observe(SilentTape(moved), plan, n, w).1.held == w.held
  {
    if n > 0 {
      FlatReadingsPassEntry(plan, moved, w, n - 1);
    }
  }

  /** An adapter that raises after its order filled: the whole CCF leg is held, and no event says so. */
  lemma SilentExposureExists(plan: PairExecutionPlan)
    requires Sendable(plan) && plan.planType == Entry
    ensures var moved := CcfLeg(plan).side.Sign() * CcfLeg(plan).quantity;
            var run := Protocol(SilentTape(moved), map[], plan, StartOfRun(0, Account(0.0, 0.0)));
            && AllHonest(run.world.sent)
            && run.outcome.status == Failed && run.events == []
            && run.world.held.ccf == moved
  {
    var moved := CcfLeg(plan).side.Sign() * CcfLeg(plan).quantity;
    var start := StartOfRun(0, Account(0.0, 0.0));
    LivePlanHasBothLegs(plan, true);
    FlatReadingsPassEntry(plan, moved, start, 2);
    var w1 := Guard(SilentTape(moved), map[], plan, 2, start).1;
    SilentAfterGuard(plan, moved, w1);
    assert Protocol(SilentTape(moved), map[], plan, start)
        == AfterGuard(SilentTape(moved), map[], plan, CcfLeg(plan), UmcLeg(plan), w1);
  }

  lemma SilentAfterGuard(plan: PairExecutionPlan, moved: real, w: World)
    requires Sendable(plan) && plan.planType == Entry && w.sent == []
    ensures var run := AfterGuard(SilentTape(moved), map[], plan, CcfLeg(plan), UmcLeg(plan), w);
            && run.outcome.status == Failed && run.events == []
            && run.world.sent == [Dispatch(CcfLeg(plan), Entry, false, true, SafeOutcome(ExecRaised), moved)]
            && run.world.held.ccf == w.held.ccf + moved
  {
    FlatReadingsPassEntry(plan, moved, w, 2);
    var w1 := Observe(SilentTape(moved), plan, 2, w).1;
    var (ccf, w2) := Send(SilentTape(moved), CcfLeg(plan), Entry, false, w1);
    assert ccf == Outcome(Failed, [], Some(Paused));
    assert LegFilled(ccf, CcfLeg(plan)) == 0.0;
    assert AfterFirstFailure(SilentTape(moved), plan, CcfLeg(plan), ccf, w2)
      == Run(Combined(Failed, [ccf], []), [], w2);
  }

  // ---------------------------------------------------------------- what the evidence rule buys

  /** Positive evidence that UMC did not move: both readings exist and agree within tolerance. */
  predicate UmcSteady(tape: Tape, tolerances: map<BrokerName, real>, plan: PairExecutionPlan, guarded: World)
    requires |plan.legs| == 2
  {
    var prior := tape(guarded.now + if plan.legs[0].broker == IbkrUmc then 0 else 1).read;
    var current := tape(guarded.now + 4).read;
    && prior.Answer? && current.Answer?
    && Abs(current.quantity - prior.quantity) <= Tolerance(tolerances, IbkrUmc)
  }

  /** Where a run stands when CCF has filled and UMC has not: two reads and two orders after the guard. */
  lemma HalfwayPoint(tape: Tape, plan: PairExecutionPlan, w: World)
    requires Sendable(plan)
    ensures var (before, w1) := Observe(tape, plan, 2, w);
            var k := if plan.legs[0].broker == IbkrUmc then 0 else 1;
            && IbkrUmc in before && before[IbkrUmc] == AsObserved(tape(w.now + k).read)
            && w1.now == w.now + 2 && |w1.readings| == |w.readings| + 2
            && w1.readings[|w.readings| + k].reply == tape(w.now + k).read
            && (NoDrift(tape) ==> w1.held == w.held && w1.readings[|w.readings| + k].held == w.held.umc)
  {
    assert Observe(tape, plan, 0, w) == (map[], w);
  }

  predicate CcfFilledUmcNot(tape: Tape, guarded: World) {
    SafeOutcome(tape(guarded.now + 2).exec).status == Filled && SafeOutcome(tape(guarded.now + 3).exec).status != Filled
  }

  /** The run up to the point where CCF has filled and UMC has not, and what decides the rest of it. */
  lemma HalfFilledRun(tape: Tape, tolerances: map<BrokerName, real>, plan: PairExecutionPlan, w: World)
    returns (ccf: Outcome, umc: Outcome, before: map<BrokerName, Option<real>>, w3: World)
    requires Sendable(plan) && w.sent == [] && CcfFilledUmcNot(tape, w)
    ensures AfterGuard(tape, tolerances, plan, CcfLeg(plan), UmcLeg(plan), w)
         == AfterSecondFailure(tape, tolerances, plan, CcfLeg(plan), UmcLeg(plan), ccf, umc, before, w3)
    ensures SteadySince(tape, tolerances, before, w3.now) == UmcSteady(tape, tolerances, plan, w)
    ensures w3.sent == [Dispatch(CcfLeg(plan), plan.planType, false, false, ccf, tape(w.now + 2).moved),
                        Dispatch(UmcLeg(plan), plan.planType, false, tape(w.now + 3).exec.ExecRaised?, umc,
                                 tape(w.now + 3).moved)]
    ensures ccf == SafeOutcome(tape(w.now + 2).exec) && umc == SafeOutcome(tape(w.now + 3).exec)
    ensures w3.now == w.now + 4 && |w3.readings| == |w.readings| + 2
    ensures var k := |w.readings| + if plan.legs[0].broker == IbkrUmc then 0 else 1;
            IbkrUmc in before && before[IbkrUmc] == AsObserved(w3.readings[k].reply)
            && (NoDrift(tape) ==> w3.readings[k].held == w.held.umc)
    ensures NoDrift(tape) ==> w3.held.umc == w.held.umc + tape(w.now + 3).moved && w3.drifted == w.drifted
    ensures w3.opening == w.opening && (Conserved(w) ==> Conserved(w3))
  {
    hide AfterFirstFailure, AfterSecondFailure, Combined, LegFilled;
    HalfwayPoint(tape, plan, w);
    var (seen, w1) := Observe(tape, plan, 2, w);
    var (first, w2) := Send(tape, CcfLeg(plan), plan.planType, false, w1);
    var (second, after) := Send(tape, UmcLeg(plan), plan.planType, false, w2);
    ccf, umc, before, w3 := first, second, seen, after;
  }

  predicate SteadySince(tape: Tape, tolerances: map<BrokerName, real>, before: map<BrokerName, Option<real>>,
                        now: nat) {
    && IbkrUmc in before && before[IbkrUmc].Some? && tape(now).read.Answer?
    && Abs(tape(now).read.quantity - before[IbkrUmc].value) <= Tolerance(tolerances, IbkrUmc)
  }

  /**
   Once CCF filled and UMC did not, the CCF leg is reversed exactly when there is positive evidence that UMC stayed put.
   Without it nothing more is sent and a human is called.
   */
  lemma ReversalOnlyOnEvidence(tape: Tape, tolerances: map<BrokerName, real>, plan: PairExecutionPlan, w: World)
    requires Sendable(plan) && w.sent == [] && CcfFilledUmcNot(tape, w)
    ensures var run := AfterGuard(tape, tolerances, plan, CcfLeg(plan), UmcLeg(plan), w);
            if UmcSteady(tape, tolerances, plan, w) then |run.world.sent| >= 3
            else |run.world.sent| == 2 && run.events == [UnverifiedSecondLeg, CriticalManualInterventionRequired]
  {
    hide AfterGuard, UmcSteady;
    var ccf, umc, before, w3 := HalfFilledRun(tape, tolerances, plan, w);
  }

  /** Every reading of the run from this point on was the truth, and so was every fill report that came back. */
  predicate TruthfulSince(w: World, after: World)
    requires |w.readings| <= |after.readings|
  {
    && (forall r :: r in after.readings[|w.readings|..] ==> TruthfulReading(r))
    && (forall d :: d in after.sent ==> TruthfulAdapter(d))
  }

  lemma SteadyMeansStill(tape: Tape, tolerances: map<BrokerName, real>, leg: ExecutionLeg,
                         before: map<BrokerName, Option<real>>,
                         k: nat, start: World, w: World)
    requires NoDrift(tape) && SteadySince(tape, tolerances, before, w.now) && leg.broker == IbkrUmc
    requires |start.readings| <= k < |w.readings| && before[IbkrUmc] == AsObserved(w.readings[k].reply)
    requires |start.readings| <= |LegMoved(tape, tolerances, leg, before, w).1.readings|
    requires TruthfulSince(start, LegMoved(tape, tolerances, leg, before, w).1)
    ensures Abs(w.held.umc - w.readings[k].held) <= Tolerance(tolerances, IbkrUmc)
  {
    var after := LegMoved(tape, tolerances, leg, before, w).1;
    var n := |start.readings|;
    assert after.readings == w.readings + [Reading(leg.broker, tape(w.now).read, w.held.umc)];
    assert after.readings[n..][k - n] in after.readings[n..];
    assert after.readings[n..][|w.readings| - n] in after.readings[n..];
  }

  /** What reversing on evidence does to the world, as a list of orders. */
  lemma ReversedRun(tape: Tape, tolerances: map<BrokerName, real>, plan: PairExecutionPlan,
                    ccf: Outcome, umc: Outcome, before: map<BrokerName, Option<real>>, w: World)
    requires Sendable(plan) && HalfFilled(plan, w) && w.sent[0].outcome == ccf && w.sent[1].outcome == umc
    requires SteadySince(tape, tolerances, before, w.now)
    ensures var run := AfterSecondFailure(tape, tolerances, plan, CcfLeg(plan), UmcLeg(plan), ccf, umc, before, w);
            var sent := run.world.sent;
            var read := LegMoved(tape, tolerances, UmcLeg(plan), before, w).1;
            && |sent| == (if LegFilled(umc, UmcLeg(plan)) > 0.0 then 4 else 3)
            && sent[0] == w.sent[0] && sent[1] == w.sent[1]
            && Reverses(sent[2], sent[0]) && (|sent| == 4 ==> Reverses(sent[3], sent[1]))
            && Conserved(run.world) && run.world.opening == w.opening && run.world.readings == read.readings
            && (NoDrift(tape) ==> run.world.drifted == w.drifted)
            && (!NeedsHuman(run) ==> sent[2].outcome.status == Filled && !sent[2].raised)
            && (!NeedsHuman(run) && |sent| == 4 ==> sent[3].outcome.status == Filled && !sent[3].raised)
  {
    var (moved, w1) := LegMoved(tape, tolerances, UmcLeg(plan), before, w);
    assert moved == Some(false);
    var first := (CcfLeg(plan), LegFilled(ccf, CcfLeg(plan)));
    var second := (UmcLeg(plan), LegFilled(umc, UmcLeg(plan)));
    if second.1 > 0.0 {
      assert [first] + [second] == [first, second];
      BothReversalsSent(tape, plan, w1);
    } else {
      assert [first] + [] == [first];
      CcfReversalSent(tape, plan, w1);
    }
  }

  /** Two truthful FILLED orders, one undoing the other, leave the venue where it was. */
  lemma TruthfulReversal(emergency: Dispatch, primary: Dispatch)
    requires Honest(emergency) && Honest(primary) && Reverses(emergency, primary)
    requires TruthfulAdapter(emergency) && TruthfulAdapter(primary)
    requires emergency.outcome.status == Filled && !emergency.raised && !primary.raised
    ensures emergency.moved == -primary.moved && emergency.leg.broker == primary.leg.broker
  {
    ReversalCancels(emergency, primary);
  }

  /** A reported fill of a truthful adapter is no larger than the movement it reports. */
  lemma FillIsMovement(d: Dispatch)
    requires Honest(d) && TruthfulAdapter(d) && (d.raised ==> d.outcome.fills == [])
    ensures LegFilled(d.outcome, d.leg) > 0.0 ==> !d.raised && LegFilled(d.outcome, d.leg) == Abs(d.moved)
  {
    HonestReport(d);
  }

  /**
   A UMC leg is only ever reversed automatically when its reported fills are within the position tolerance: with
   truthful venues the imbalanced-pair branch is dead under the default tolerance of zero. And when the reversals
   fill, CCF is back exactly where the run found it and UMC is back to within tolerance.
   */
  lemma ReversalRestoresPositions(tape: Tape, tolerances: map<BrokerName, real>, plan: PairExecutionPlan, w: World)
    requires Sendable(plan) && Conserved(w) && w.sent == [] && NoDrift(tape)
    requires CcfFilledUmcNot(tape, w) && UmcSteady(tape, tolerances, plan, w)
    requires var run := AfterGuard(tape, tolerances, plan, CcfLeg(plan), UmcLeg(plan), w);
             && AllHonest(run.world.sent)
             && |w.readings| <= |run.world.readings| && TruthfulSince(w, run.world)
    ensures var run := AfterGuard(tape, tolerances, plan, CcfLeg(plan), UmcLeg(plan), w);
            && (|run.world.sent| == 4 ==>
                  LegFilled(run.world.sent[1].outcome, UmcLeg(plan))
                  <= Tolerance(tolerances, IbkrUmc))
            && (!NeedsHuman(run) ==>
                  && run.world.held.ccf == w.held.ccf
                  && Abs(run.world.held.umc - w.held.umc) <= Tolerance(tolerances, IbkrUmc))
  {
    hide AfterGuard, AfterSecondFailure, UmcSteady, Unwind, LegMoved, Combined;
    var ccf, umc, before, w3 := HalfFilledRun(tape, tolerances, plan, w);
    var run := AfterSecondFailure(tape, tolerances, plan, CcfLeg(plan), UmcLeg(plan), ccf, umc, before, w3);
    assert w3.sent[0] in run.world.sent by {
      SentOnlyGrows(tape, tolerances, plan, before, w3);
      assert w3.sent <= run.world.sent;
      assert run.world.sent[0] == w3.sent[0];
    }
    ReversedRun(tape, tolerances, plan, ccf, umc, before, w3);
    var k := |w.readings| + if plan.legs[0].broker == IbkrUmc then 0 else 1;
    SteadyMeansStill(tape, tolerances, UmcLeg(plan), before, k, w, w3);
    var sent := run.world.sent;
    assert sent[0] in sent && sent[1] in sent && sent[2] in sent;
    FillIsMovement(sent[1]);
    if !NeedsHuman(run) {
      TruthfulReversal(sent[2], sent[0]);
      if |sent| == 4 {
        assert sent[3] in sent;
        TruthfulReversal(sent[3], sent[1]);
      }
      FourShares(sent, FubonCcf);
      FourShares(sent, IbkrUmc);
      assert TrueMoves([], FubonCcf) == 0.0 && TrueMoves([], IbkrUmc) == 0.0;
    }
  }
}
