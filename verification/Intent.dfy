/** Two-leg execution plans and the checks a live plan must pass before anything is sent. */
module Intent {
  import opened Models

  const MARKET := "market"

  datatype PlanType = Entry | Exit {
    function Opposite(): PlanType {
      if Entry? then Exit else Entry
    }
  }

  datatype PlanStatus = Created | Validated | Rejected | Recorded

  datatype ExecutionLeg = ExecutionLeg(
    broker: BrokerName,
    symbol: string,
    side: OrderSide,
    quantity: real,
    price: real,
    orderType: string,
    feeTwd: real
  )

  datatype CheckType =
    | CcfFirstRequired | LegCount | OrderTypeSupported | RequiredBrokers
    | QuantityPositive | LegOrderTypeMatchesPlan | SideMatchesDirection
    | CcfQuantityInteger | CcfSymbolMatches
    | LiveOrderDisabled | PricePositive | SameTimestamp | ExpectedPricePositive | TriggerBookPresent | CcfSymbolPresent

  datatype ExecutionCheck = ExecutionCheck(checkType: CheckType, passed: bool)

  /** An absent ccfSymbol is the empty string: both skip the symbol check. */
  datatype PairExecutionPlan = PairExecutionPlan(
    planId: string,
    planType: PlanType,
    direction: Direction,
    legs: seq<ExecutionLeg>,
    status: PlanStatus,
    ccfSymbol: string,
    orderType: string,
    checks: seq<ExecutionCheck>
  )

  function ExpectedSide(planType: PlanType, direction: Direction, broker: BrokerName): OrderSide {
    var entry := if (direction == ShortUmcLongCcf) == (broker == FubonCcf) then Buy else Sell;
    if planType == Entry then entry else entry.Reverse()
  }

  predicate IsWhole(quantity: real) {
    quantity == quantity.Floor as real
  }

  function CountLegs(legs: seq<ExecutionLeg>, broker: BrokerName): nat {
    if legs == [] then 0
    else CountLegs(legs[..|legs| - 1], broker) + (if legs[|legs| - 1].broker == broker then 1 else 0)
  }

  function LegChecks(plan: PairExecutionPlan, leg: ExecutionLeg): seq<ExecutionCheck> {
    [ExecutionCheck(QuantityPositive, leg.quantity > 0.0),
     ExecutionCheck(LegOrderTypeMatchesPlan, leg.orderType == plan.orderType),
     ExecutionCheck(SideMatchesDirection, leg.side == ExpectedSide(plan.planType, plan.direction, leg.broker))]
    + if leg.broker == FubonCcf then
      [ExecutionCheck(CcfQuantityInteger, IsWhole(leg.quantity)),
       ExecutionCheck(CcfSymbolMatches, plan.ccfSymbol == "" || leg.symbol == plan.ccfSymbol)]
    else []
  }

  predicate AllPassed(checks: seq<ExecutionCheck>) {
    forall c :: c in checks ==> c.passed
  }

  /** What a leg must look like for every one of its checks to pass. */
  predicate LegAcceptable(plan: PairExecutionPlan, leg: ExecutionLeg) {
    && leg.quantity > 0.0
    && leg.orderType == plan.orderType
    && leg.side == ExpectedSide(plan.planType, plan.direction, leg.broker)
    && (leg.broker == FubonCcf ==> IsWhole(leg.quantity) && (plan.ccfSymbol == "" || leg.symbol == plan.ccfSymbol))
  }

  /** A sendable plan: one leg per venue, in either order, both acceptable, market only. */
  predicate LivePlanOk(plan: PairExecutionPlan, ccfFirst: bool) {
    && ccfFirst
    && plan.orderType == MARKET
    && |plan.legs| == 2
    && plan.legs[0].broker != plan.legs[1].broker
    && LegAcceptable(plan, plan.legs[0])
    && LegAcceptable(plan, plan.legs[1])
  }

  /** The verdict of the live checks; the recorded plan otherwise keeps every field. */
  method ValidateLivePlan(plan: PairExecutionPlan, ccfFirst: bool) returns (validated: PairExecutionPlan)
    ensures validated == plan.(status := validated.status, checks := validated.checks)
    ensures validated.status == (if LivePlanOk(plan, ccfFirst) then Validated else Rejected)
    ensures AllPassed(validated.checks) <==> LivePlanOk(plan, ccfFirst)
  {
    var checks := [
      ExecutionCheck(CcfFirstRequired, ccfFirst),
      ExecutionCheck(LegCount, |plan.legs| == 2),
      ExecutionCheck(OrderTypeSupported, plan.orderType == MARKET)];
    var umcCount, ccfCount := 0, 0;
    for i := 0 to |plan.legs|
      invariant umcCount == CountLegs(plan.legs[..i], IbkrUmc)
      invariant ccfCount == CountLegs(plan.legs[..i], FubonCcf)
    {
      assert plan.legs[..i + 1][..i] == plan.legs[..i];
      if plan.legs[i].broker == IbkrUmc {
        umcCount := umcCount + 1;
      } else {
        ccfCount := ccfCount + 1;
      }
    }
    assert plan.legs[..|plan.legs|] == plan.legs;
    checks := checks + [ExecutionCheck(RequiredBrokers, umcCount == 1 && ccfCount == 1)];
    ghost var header := ccfFirst && |plan.legs| == 2 && plan.orderType == MARKET && umcCount == 1 && ccfCount == 1;
    assert AllPassed(checks) <==> header by {
      assert checks[0] in checks && checks[1] in checks && checks[2] in checks && checks[3] in checks;
    }
    for i := 0 to |plan.legs|
      invariant AllPassed(checks) <==> header && forall k :: 0 <= k < i ==> LegAcceptable(plan, plan.legs[k])
    {
      var leg := plan.legs[i];
      LegChecksDecide(plan, leg);
      AllPassedConcat(checks, LegChecks(plan, leg));
      checks := checks + LegChecks(plan, leg);
    }
    TwoLegCount(plan.legs);
    var passed := forall c :: c in checks ==> c.passed;
    validated := plan.(status := if passed then Validated else Rejected, checks := checks);
  }

  lemma AllPassedConcat(a: seq<ExecutionCheck>, b: seq<ExecutionCheck>)
    ensures AllPassed(a + b) <==> AllPassed(a) && AllPassed(b)
  {
    if AllPassed(a + b) {
      assert forall c :: c in a ==> c in a + b;
      assert forall c :: c in b ==> c in a + b;
    }
  }

  lemma LegChecksDecide(plan: PairExecutionPlan, leg: ExecutionLeg)
    ensures AllPassed(LegChecks(plan, leg)) <==> LegAcceptable(plan, leg)
  {
    var cs := LegChecks(plan, leg);
    assert cs[0] in cs && cs[1] in cs && cs[2] in cs;
    if leg.broker == FubonCcf {
      assert cs[3] in cs && cs[4] in cs;
    }
  }

  lemma TwoLegCount(legs: seq<ExecutionLeg>)
    ensures |legs| == 2 && CountLegs(legs, IbkrUmc) == 1 && CountLegs(legs, FubonCcf) == 1
            <==> |legs| == 2 && legs[0].broker != legs[1].broker
  {
    if |legs| == 2 {
      assert legs[..1][..0] == [];
      forall b: BrokerName
        ensures CountLegs(legs, b) == (if legs[0].broker == b then 1 else 0) + (if legs[1].broker == b then 1 else 0)
      {
        assert CountLegs(legs[..1], b) == CountLegs(legs[..1][..0], b) + (if legs[0].broker == b then 1 else 0);
      }
    }
  }

  /** The one leg for a venue, or None unless there is exactly one. */
  function SingleLeg(plan: PairExecutionPlan, broker: BrokerName): Option<ExecutionLeg> {
    if CountLegs(plan.legs, broker) != 1 then None else Some(FirstLeg(plan.legs, broker))
  }

  function FirstLeg(legs: seq<ExecutionLeg>, broker: BrokerName): (leg: ExecutionLeg)
    requires CountLegs(legs, broker) >= 1
    ensures leg in legs && leg.broker == broker
  {
    var last := legs[|legs| - 1];
    if CountLegs(legs[..|legs| - 1], broker) >= 1 then FirstLeg(legs[..|legs| - 1], broker) else last
  }

  /** A plan that passed the live checks always has both legs, so the missing-leg rejection is dead. */
  lemma LivePlanHasBothLegs(plan: PairExecutionPlan, ccfFirst: bool)
    requires LivePlanOk(plan, ccfFirst)
    ensures SingleLeg(plan, FubonCcf).Some? && SingleLeg(plan, IbkrUmc).Some?
    ensures SingleLeg(plan, FubonCcf).value == (if plan.legs[0].broker == FubonCcf then plan.legs[0] else plan.legs[1])
    ensures SingleLeg(plan, IbkrUmc).value == (if plan.legs[0].broker == IbkrUmc then plan.legs[0] else plan.legs[1])
  {
    TwoLegCount(plan.legs);
  }

  // ---------------------------------------------------------------- dry-run plans

  datatype DryRunLeg = DryRunLeg(
    leg: ExecutionLeg,
    timestamp: int,
    rowIndex: int,
    expectedPrice: Option<real>,
    triggerBid: Option<real>,
    triggerAsk: Option<real>
  )

  /** A plan as the dry-run validator sees it, with each leg's provenance beside it. */
  datatype DryRunPlan = DryRunPlan(plan: PairExecutionPlan, legs: seq<DryRunLeg>, timestamp: int, rowIndex: int,
                                   priced: bool) {
    predicate Coherent() {
      |legs| == |plan.legs| && forall i :: 0 <= i < |legs| ==> legs[i].leg == plan.legs[i]
    }
  }

  function PositivePrice(price: Option<real>): bool {
    price.Some? && price.value > 0.0
  }

  function DryRunLegChecks(p: DryRunPlan, l: DryRunLeg): seq<ExecutionCheck> {
    [ExecutionCheck(QuantityPositive, l.leg.quantity > 0.0),
     ExecutionCheck(PricePositive, l.leg.price > 0.0),
     ExecutionCheck(SameTimestamp, l.timestamp == p.timestamp && l.rowIndex == p.rowIndex),
     ExecutionCheck(LegOrderTypeMatchesPlan, l.leg.orderType == p.plan.orderType)]
    + if p.priced then
      [ExecutionCheck(ExpectedPricePositive, PositivePrice(l.expectedPrice)),
       ExecutionCheck(TriggerBookPresent, PositivePrice(l.triggerBid) && PositivePrice(l.triggerAsk))]
    else []
  }

  predicate DryRunLegOk(p: DryRunPlan, l: DryRunLeg) {
    && l.leg.quantity > 0.0 && l.leg.price > 0.0
    && l.timestamp == p.timestamp && l.rowIndex == p.rowIndex
    && l.leg.orderType == p.plan.orderType
    && (p.priced ==> PositivePrice(l.expectedPrice) && PositivePrice(l.triggerBid) && PositivePrice(l.triggerAsk))
  }

  /** What the pair itself must look like once each venue has exactly one leg. */
  predicate DryRunPairOk(plan: PairExecutionPlan) {
    && plan.ccfSymbol != ""
    && forall l :: l in plan.legs ==>
         && l.side == ExpectedSide(plan.planType, plan.direction, l.broker)
         && (l.broker == FubonCcf ==> IsWhole(l.quantity) && l.quantity > 0.0 && l.symbol == plan.ccfSymbol)
  }

  predicate DryRunOk(p: DryRunPlan, allowLiveOrder: bool) {
    && !allowLiveOrder && p.plan.orderType == MARKET
    && |p.plan.legs| == 2 && p.plan.legs[0].broker != p.plan.legs[1].broker
    && DryRunPairOk(p.plan)
    && forall l :: l in p.legs ==> DryRunLegOk(p, l)
  }

  method ValidateDryRun(p: DryRunPlan, allowLiveOrder: bool) returns (status: PlanStatus, checks: seq<ExecutionCheck>)
    requires p.Coherent()
    ensures status == if AllPassed(checks) then Validated else Rejected
    ensures status == Validated <==> DryRunOk(p, allowLiveOrder)
  {
    hide CountLegs, DryRunPairOk, DryRunLegOk, DryRunLegChecks;
    var plan := p.plan;
    var umcCount, ccfCount := CountLegs(plan.legs, IbkrUmc), CountLegs(plan.legs, FubonCcf);
    checks := [ExecutionCheck(LiveOrderDisabled, !allowLiveOrder), ExecutionCheck(LegCount, |plan.legs| == 2),
               ExecutionCheck(OrderTypeSupported, plan.orderType == MARKET),
               ExecutionCheck(RequiredBrokers, umcCount == 1 && ccfCount == 1)];
    ghost var header := !allowLiveOrder && |plan.legs| == 2 && plan.orderType == MARKET && umcCount == 1
      && ccfCount == 1;
    assert AllPassed(checks) <==> header by {
      assert checks[0] in checks && checks[1] in checks && checks[2] in checks && checks[3] in checks;
    }
    for i := 0 to |p.legs|
      invariant AllPassed(checks) <==> header && forall k :: 0 <= k < i ==> DryRunLegOk(p, p.legs[k])
    {
      DryRunLegDecides(p, p.legs[i]);
      AllPassedConcat(checks, DryRunLegChecks(p, p.legs[i]));
      checks := checks + DryRunLegChecks(p, p.legs[i]);
    }
    TwoLegCount(plan.legs);
    var pair := PairChecks(plan);
    AllPassedConcat(checks, pair);
    checks := checks + pair;
    status := if forall c :: c in checks ==> c.passed then Validated else Rejected;
  }

  /** The checks on the two venues' own legs, for whichever venue has exactly one. */
  method PairChecks(plan: PairExecutionPlan) returns (pair: seq<ExecutionCheck>)
    ensures |plan.legs| == 2 && plan.legs[0].broker != plan.legs[1].broker ==> (AllPassed(pair) <==> DryRunPairOk(plan))
  {
    var umc, ccf := SingleLeg(plan, IbkrUmc), SingleLeg(plan, FubonCcf);
    pair := [];
    if ccf.Some? {
      pair := [ExecutionCheck(CcfQuantityInteger, ccf.value.quantity > 0.0 && IsWhole(ccf.value.quantity)),
               ExecutionCheck(CcfSymbolPresent, plan.ccfSymbol != ""),
               ExecutionCheck(CcfSymbolMatches, plan.ccfSymbol == "" || ccf.value.symbol == plan.ccfSymbol),
               ExecutionCheck(SideMatchesDirection,
                              ccf.value.side == ExpectedSide(plan.planType, plan.direction, FubonCcf))];
      assert pair[0] in pair && pair[1] in pair && pair[2] in pair && pair[3] in pair;
    }
    if umc.Some? {
      var side :=
        [ExecutionCheck(SideMatchesDirection, umc.value.side == ExpectedSide(plan.planType, plan.direction, IbkrUmc))];
      assert side[0] in side;
      AllPassedConcat(pair, side);
      pair := pair + side;
    }
    if |plan.legs| == 2 && plan.legs[0].broker != plan.legs[1].broker {
      BothLegs(plan);
      assert plan.legs[0] in plan.legs && plan.legs[1] in plan.legs;
    }
  }

  lemma BothLegs(plan: PairExecutionPlan)
    requires |plan.legs| == 2 && plan.legs[0].broker != plan.legs[1].broker
    ensures SingleLeg(plan, FubonCcf) == Some(if plan.legs[0].broker == FubonCcf then plan.legs[0] else plan.legs[1])
    ensures SingleLeg(plan, IbkrUmc) == Some(if plan.legs[0].broker == IbkrUmc then plan.legs[0] else plan.legs[1])
  {
    TwoLegCount(plan.legs);
  }

  lemma DryRunLegDecides(p: DryRunPlan, l: DryRunLeg)
    ensures AllPassed(DryRunLegChecks(p, l)) <==> DryRunLegOk(p, l)
  {
    var cs := DryRunLegChecks(p, l);
    assert cs[0] in cs && cs[1] in cs && cs[2] in cs && cs[3] in cs;
    if p.priced {
      assert cs[4] in cs && cs[5] in cs;
    }
  }

  /** Whatever passes the dry-run checks passes the live ones too. */
  lemma DryRunImpliesLive(p: DryRunPlan)
    requires p.Coherent() && DryRunOk(p, false)
    ensures LivePlanOk(p.plan, true)
  {
    assert p.legs[0] in p.legs && p.legs[1] in p.legs;
    assert p.plan.legs[0] in p.plan.legs && p.plan.legs[1] in p.plan.legs;
  }

  /** The remedy for one filled leg: same instrument, reversed side, and the opposite plan type. */
  function EmergencyClosePlan(plan: PairExecutionPlan, leg: ExecutionLeg, quantity: real): PairExecutionPlan {
    var closeLeg := leg.(side := leg.side.Reverse(), quantity := quantity, feeTwd := 0.0);
    PairExecutionPlan(plan.planId + "-EMERGENCY", plan.planType.Opposite(), plan.direction, [closeLeg],
                      Recorded, plan.ccfSymbol, MARKET, [])
  }
}
