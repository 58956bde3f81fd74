/**
 The live two-leg protocol against adversarial brokers.

 A broker is a hidden signed position plus whatever the tape says it does during the call numbered `now`:
 third parties may move the position, an order may move it, and the answer may be anything, including an exception.
 Theorems about the protocol quantify over every tape.
 */
module Coordinator {
  import opened Models
  import opened Intent

  datatype OutcomeStatus = Filled | Rejected | Failed | PartialFill | Unknown

  datatype Outcome = Outcome(status: OutcomeStatus, fills: seq<Fill>, recommended: Option<StrategyState>)

  datatype ExecReply = ExecRaised | Returned(outcome: Outcome)

  datatype ReadReply = ReadRaised | NoAnswer | Answer(quantity: real)

  datatype Beat = Beat(ccfDrift: real, umcDrift: real, moved: real, exec: ExecReply, read: ReadReply)

  type Tape = nat -> Beat

  datatype Account = Account(ccf: real, umc: real) {
    function Of(broker: BrokerName): real {
      if broker == FubonCcf then ccf else umc
    }

    function Add(broker: BrokerName, amount: real): Account {
      if broker == FubonCcf then Account(ccf + amount, umc) else Account(ccf, umc + amount)
    }
  }

  /** One order handed to an adapter: what came back, and how far the true position moved meanwhile. */
  datatype Dispatch = Dispatch(leg: ExecutionLeg, planType: PlanType, emergency: bool, raised: bool, outcome: Outcome,
                               moved: real)

  /** One position query: what the broker answered and what it really held. */
  datatype Reading = Reading(broker: BrokerName, reply: ReadReply, held: real)

  datatype World = World(
    now: nat,
    opening: Account,
    drifted: Account,
    held: Account,
    sent: seq<Dispatch>,
    readings: seq<Reading>
  )

  /** True position changes caused by our own orders on one venue. */
  function TrueMoves(sent: seq<Dispatch>, broker: BrokerName): real {
    if sent == [] then 0.0
    else
      var last := sent[|sent| - 1];
      TrueMoves(sent[..|sent| - 1], broker) + if last.leg.broker == broker then last.moved else 0.0
  }

  /** Positions change only by third-party drift and by the orders we sent. */
  predicate Conserved(w: World) {
    forall b: BrokerName :: w.held.Of(b) == w.opening.Of(b) + w.drifted.Of(b) + TrueMoves(w.sent, b)
  }

  function StartOfRun(now: nat, held: Account): (w: World)
    ensures Conserved(w)
  {
    World(now, held, Account(0.0, 0.0), held, [], [])
  }

  function Drift(beat: Beat, w: World): World {
    w.(now := w.now + 1,
       drifted := Account(w.drifted.ccf + beat.ccfDrift, w.drifted.umc + beat.umcDrift),
       held := Account(w.held.ccf + beat.ccfDrift, w.held.umc + beat.umcDrift))
  }

  /** Nobody but us touches the positions. */
  ghost predicate NoDrift(tape: Tape) {
    forall i: nat :: tape(i).ccfDrift == 0.0 && tape(i).umcDrift == 0.0
  }

  /** A raising adapter becomes a FAILED outcome that claims no fills. */
  function SafeOutcome(reply: ExecReply): Outcome {
    match reply
    case ExecRaised => Outcome(Failed, [], Some(Paused))
    case Returned(outcome) => outcome
  }

  function Send(tape: Tape, leg: ExecutionLeg, planType: PlanType, emergency: bool, w: World): (r: (Outcome, World))
    ensures Conserved(w) ==> Conserved(r.1)
    ensures NoDrift(tape) ==> r.1.drifted == w.drifted
    ensures r.1.opening == w.opening && r.1.readings == w.readings
  {
    var beat := tape(w.now);
    var outcome := SafeOutcome(beat.exec);
    var d := Dispatch(leg, planType, emergency, beat.exec.ExecRaised?, outcome, beat.moved);
    var after := Drift(beat, w);
    assert (w.sent + [d])[..|w.sent|] == w.sent;
    (outcome, after.(held := after.held.Add(leg.broker, beat.moved), sent := w.sent + [d]))
  }

  function Read(tape: Tape, broker: BrokerName, w: World): (r: (ReadReply, World))
    ensures Conserved(w) ==> Conserved(r.1)
    ensures NoDrift(tape) ==> r.1.drifted == w.drifted
  {
    var beat := tape(w.now);
    var after := Drift(beat, w);
    (beat.read, after.(readings := w.readings + [Reading(broker, beat.read, after.held.Of(broker))]))
  }

  // ---------------------------------------------------------------- position guard

  datatype PositionCheck = PositionCheck(broker: BrokerName, expected: real, observed: Option<real>, passed: bool)

  /** The position an order of this side must be closing: a SELL closes a long, a BUY closes a short. */
  function SignedCloseQuantity(side: OrderSide, quantity: real): real {
    if side == Buy then -Abs(quantity) else Abs(quantity)
  }

  function Tolerance(tolerances: map<BrokerName, real>, broker: BrokerName): real {
    if broker in tolerances then tolerances[broker] else 0.0
  }

  function CheckPosition(plan: PairExecutionPlan, leg: ExecutionLeg, reply: ReadReply, tolerance: real): PositionCheck {
    match reply
    case ReadRaised => PositionCheck(leg.broker, 0.0, None, false)
    case NoAnswer => PositionCheck(leg.broker, 0.0, None, false)
    case Answer(observed) =>
      var expected := if plan.planType == Exit then SignedCloseQuantity(leg.side, leg.quantity) else 0.0;
      PositionCheck(leg.broker, expected, Some(observed), Abs(observed - expected) <= tolerance)
  }

  /** The guard over the first n legs; each leg costs one position query. */
  function Guard(tape: Tape, tolerances: map<BrokerName, real>, plan: PairExecutionPlan, n: nat, w: World)
    : (r: (seq<PositionCheck>, World))
    requires n <= |plan.legs|
    ensures |r.0| == n
    ensures r.1.sent == w.sent && r.1.opening == w.opening
    ensures Conserved(w) ==> Conserved(r.1)
    ensures NoDrift(tape) ==> r.1.drifted == w.drifted
  {
    if n == 0 then ([], w)
    else
      var (checks, w1) := Guard(tape, tolerances, plan, n - 1, w);
      var leg := plan.legs[n - 1];
      var (reply, w2) := Read(tape, leg.broker, w1);
      (checks + [CheckPosition(plan, leg, reply, Tolerance(tolerances, leg.broker))], w2)
  }

  predicate GuardPassed(checks: seq<PositionCheck>) {
    forall c :: c in checks ==> c.passed
  }

  /**
   What the guard is for, told from the broker's answer alone: an entry finds nothing at the venue, and an exit finds
   what its own order brings to nothing, within the venue's slack.
   */
  predicate Clears(tape: Tape, tolerances: map<BrokerName, real>, plan: PairExecutionPlan, k: nat, now: nat)
    requires k < |plan.legs|
  {
    var leg, reply := plan.legs[k], tape(now + k).read;
    var slack := if leg.broker in tolerances then tolerances[leg.broker] else 0.0;
    && reply.Answer?
    && Abs(reply.quantity + if plan.planType == Exit then leg.side.Sign() * Abs(leg.quantity) else 0.0) <= slack
  }

  predicate AllClear(tape: Tape, tolerances: map<BrokerName, real>, plan: PairExecutionPlan, now: nat) {
    forall k: nat :: k < |plan.legs| ==> Clears(tape, tolerances, plan, k, now)
  }

  lemma CheckClears(tape: Tape, tolerances: map<BrokerName, real>, plan: PairExecutionPlan, k: nat, now: nat)
    requires k < |plan.legs|
    ensures var leg := plan.legs[k];
            CheckPosition(plan, leg, tape(now + k).read, Tolerance(tolerances, leg.broker)).passed
            <==> Clears(tape, tolerances, plan, k, now)
  {
  }

  /** The guard passes over the first n legs exactly when each of them is clear. */
  lemma {:induction false} GuardPassesExactlyWhen(tape: Tape, tolerances: map<BrokerName, real>,
                                                  plan: PairExecutionPlan, n: nat, w: World)
    requires n <= |plan.legs|
    ensures var (checks, after) := Guard(tape, tolerances, plan, n, w);
            && (GuardPassed(checks) <==> forall k: nat :: k < n ==> Clears(tape, tolerances, plan, k, w.now))
            && after.now == w.now + n
  {
    hide CheckPosition, Clears;
    if n > 0 {
      GuardPassesExactlyWhen(tape, tolerances, plan, n - 1, w);
      CheckClears(tape, tolerances, plan, n - 1, w.now);
      var (checks, earlier) := (Guard(tape, tolerances, plan, n, w).0, Guard(tape, tolerances, plan, n - 1, w).0);
      assert checks == earlier + [checks[n - 1]];
    }
  }

  function AsObserved(reply: ReadReply): Option<real> {
    match reply
    case Answer(quantity) => Some(quantity)
    case _ => None
  }

  /** What the brokers of the first n legs say they hold, None when one cannot say. */
  function Observe(tape: Tape, plan: PairExecutionPlan, n: nat, w: World): (r: (map<BrokerName, Option<real>>, World))
    requires n <= |plan.legs|
    ensures r.1.sent == w.sent && r.1.opening == w.opening
    ensures Conserved(w) ==> Conserved(r.1)
    ensures NoDrift(tape) ==> r.1.drifted == w.drifted
  {
    if n == 0 then (map[], w)
    else
      var (observed, w1) := Observe(tape, plan, n - 1, w);
      var leg := plan.legs[n - 1];
      var (reply, w2) := Read(tape, leg.broker, w1);
      (observed[leg.broker := AsObserved(reply)], w2)
  }

  /** Did the leg move its broker's position? None when that cannot be known. */
  function LegMoved(tape: Tape, tolerances: map<BrokerName, real>, leg: ExecutionLeg,
                    before: map<BrokerName, Option<real>>, w: World)
    : (r: (Option<bool>, World))
    ensures r.1.sent == w.sent && r.1.opening == w.opening
    ensures Conserved(w) ==> Conserved(r.1)
    ensures NoDrift(tape) ==> r.1.drifted == w.drifted
  {
    if leg.broker !in before || before[leg.broker].None? then (None, w)
    else
      var (reply, w1) := Read(tape, leg.broker, w);
      match reply
      case Answer(current) =>
        (Some(Abs(current - before[leg.broker].value) > Tolerance(tolerances, leg.broker)), w1)
      case _ => (None, w1)
  }

  // ---------------------------------------------------------------- protocol

  datatype Event =
    | ExposureBreach
    | SingleLegExposure
    | ImbalancedPairExposure
    | UnverifiedSecondLeg
    | EmergencyCloseAttempted(broker: BrokerName, quantity: real)
    | EmergencyCloseFilled(broker: BrokerName)
    | EmergencyCloseFailed(broker: BrokerName)
    | CriticalManualInterventionRequired

  datatype Run = Run(outcome: Outcome, events: seq<Event>, world: World)

  function Rejection(w: World): Run {
    Run(Outcome(OutcomeStatus.Rejected, [], Some(Paused)), [], w)
  }

  function AllFills(outcomes: seq<Outcome>): seq<Fill> {
    if outcomes == [] then [] else AllFills(outcomes[..|outcomes| - 1]) + outcomes[|outcomes| - 1].fills
  }

  function Combined(status: OutcomeStatus, primary: seq<Outcome>, emergencies: seq<Outcome>): Outcome {
    Outcome(status, AllFills(primary + emergencies),
            if status != Filled || emergencies != [] then Some(Paused) else None)
  }

  function LegFilled(outcome: Outcome, leg: ExecutionLeg): real {
    FilledQuantity(outcome.fills, leg.broker, leg.symbol)
  }

  type Exposed = (ExecutionLeg, real)

  /** One emergency order per exposed leg; anything short of FILLED calls for a human. */
  function Unwind(tape: Tape, plan: PairExecutionPlan, exposed: seq<Exposed>,
                  w: World): (r: (seq<Outcome>, seq<Event>, World))
    ensures |r.0| == |exposed| && |r.2.sent| == |w.sent| + |exposed|
    ensures r.2.opening == w.opening && r.2.readings == w.readings
    ensures Conserved(w) ==> Conserved(r.2)
    ensures NoDrift(tape) ==> r.2.drifted == w.drifted
  {
    if exposed == [] then ([], [], w)
    else
      var n := |exposed| - 1;
      var (outcomes, events, w1) := Unwind(tape, plan, exposed[..n], w);
      var (leg, quantity) := exposed[n];
      var emergency := EmergencyClosePlan(plan, leg, quantity);
      var (outcome, w2) := Send(tape, emergency.legs[0], emergency.planType, true, w1);
      (outcomes + [outcome],
       events + [EmergencyCloseAttempted(leg.broker, quantity)]
       + (if outcome.status == Filled then [EmergencyCloseFilled(leg.broker)]
          else [EmergencyCloseFailed(leg.broker), CriticalManualInterventionRequired]),
       w2)
  }

  function AfterFirstFailure(tape: Tape, plan: PairExecutionPlan, ccfLeg: ExecutionLeg, ccf: Outcome, w: World): Run {
    var filled := LegFilled(ccf, ccfLeg);
    if filled > 0.0 then
      var (emergencies, events, w1) := Unwind(tape, plan, [(ccfLeg, filled)], w);
      Run(Combined(ccf.status, [ccf], emergencies), [ExposureBreach, SingleLegExposure] + events, w1)
    else
      Run(Combined(ccf.status, [ccf], []), [], w)
  }

  function AfterSecondFailure(tape: Tape, tolerances: map<BrokerName, real>, plan: PairExecutionPlan,
                              ccfLeg: ExecutionLeg, umcLeg: ExecutionLeg, ccf: Outcome, umc: Outcome,
                              before: map<BrokerName, Option<real>>, w: World): Run
  {
    var (moved, w1) := LegMoved(tape, tolerances, umcLeg, before, w);
    if moved == Some(false) then
      var umcFilled := LegFilled(umc, umcLeg);
      var both := umcFilled > 0.0;
      var exposed := [(ccfLeg, LegFilled(ccf, ccfLeg))] + if both then [(umcLeg, umcFilled)] else [];
      var (emergencies, events, w2) := Unwind(tape, plan, exposed, w1);
      Run(Combined(umc.status, [ccf, umc], emergencies),
          [ExposureBreach, if both then ImbalancedPairExposure else SingleLegExposure] + events, w2)
    else
      var (_, w2) := Observe(tape, plan, |plan.legs|, w1);
      Run(Combined(umc.status, [ccf, umc], []), [UnverifiedSecondLeg, CriticalManualInterventionRequired], w2)
  }

  function AfterGuard(tape: Tape, tolerances: map<BrokerName, real>, plan: PairExecutionPlan,
                      ccfLeg: ExecutionLeg, umcLeg: ExecutionLeg, w: World): Run
  {
    var (before, w1) := Observe(tape, plan, |plan.legs|, w);
    var (ccf, w2) := Send(tape, ccfLeg, plan.planType, false, w1);
    if ccf.status != Filled then
      AfterFirstFailure(tape, plan, ccfLeg, ccf, w2)
    else
      var (umc, w3) := Send(tape, umcLeg, plan.planType, false, w2);
      if umc.status == Filled then
        Run(Combined(Filled, [ccf, umc], []), [], w3)
      else
        AfterSecondFailure(tape, tolerances, plan, ccfLeg, umcLeg, ccf, umc, before, w3)
  }

  /** The whole protocol for a plan whose live checks have been recorded in its status. */
  function Protocol(tape: Tape, tolerances: map<BrokerName, real>, plan: PairExecutionPlan, w: World): Run {
    var ccfLeg, umcLeg := SingleLeg(plan, FubonCcf), SingleLeg(plan, IbkrUmc);
    if plan.status != Recorded || ccfLeg.None? || umcLeg.None? then Rejection(w)
    else
      var (checks, w1) := Guard(tape, tolerances, plan, |plan.legs|, w);
      if !GuardPassed(checks) then Rejection(w1)
      else AfterGuard(tape, tolerances, plan, ccfLeg.value, umcLeg.value, w1)
  }

  /** An order that carries a leg of the plan, not a remedy. */
  predicate Carries(d: Dispatch, planType: PlanType, leg: ExecutionLeg) {
    d.leg == leg && d.planType == planType && !d.emergency
  }

  /** Everything sent after the first n orders is a remedy. */
  predicate OnlyRemedies(sent: seq<Dispatch>, n: nat) {
    forall i :: n <= i < |sent| ==> sent[i].emergency
  }

  /** What goes out past the guard: the CCF leg, the UMC leg exactly if CCF reported FILLED, and remedies. */
  predicate LegsInOrder(sent: seq<Dispatch>, n: nat, planType: PlanType, ccfLeg: ExecutionLeg, umcLeg: ExecutionLeg) {
    && |sent| > n && Carries(sent[n], planType, ccfLeg)
    && if sent[n].outcome.status == Filled
       then |sent| > n + 1 && Carries(sent[n + 1], planType, umcLeg) && OnlyRemedies(sent, n + 2)
       else OnlyRemedies(sent, n + 1)
  }

  lemma {:induction false} UnwindOnlyRemedies(tape: Tape, plan: PairExecutionPlan, exposed: seq<Exposed>, w: World)
    ensures var sent := Unwind(tape, plan, exposed, w).2.sent;
            w.sent <= sent && OnlyRemedies(sent, |w.sent|)
  {
    if exposed != [] {
      UnwindOnlyRemedies(tape, plan, exposed[..|exposed| - 1], w);
    }
  }

  lemma FailuresOnlyRemedy(tape: Tape, tolerances: map<BrokerName, real>, plan: PairExecutionPlan,
                           ccfLeg: ExecutionLeg, umcLeg: ExecutionLeg, ccf: Outcome, umc: Outcome,
                           before: map<BrokerName, Option<real>>, w: World)
    ensures var sent := AfterFirstFailure(tape, plan, ccfLeg, ccf, w).world.sent;
            w.sent <= sent && OnlyRemedies(sent, |w.sent|)
    ensures var sent := AfterSecondFailure(tape, tolerances, plan, ccfLeg, umcLeg, ccf, umc, before, w).world.sent;
            w.sent <= sent && OnlyRemedies(sent, |w.sent|)
  {
    hide Unwind, LegMoved, Observe, LegFilled, Combined;
    var filled := LegFilled(ccf, ccfLeg);
    var w1 := LegMoved(tape, tolerances, umcLeg, before, w).1;
    UnwindOnlyRemedies(tape, plan, [(ccfLeg, filled)], w);
    UnwindOnlyRemedies(tape, plan, [(ccfLeg, filled)] + [], w1);
    UnwindOnlyRemedies(tape, plan, [(ccfLeg, filled)] + [(umcLeg, LegFilled(umc, umcLeg))], w1);
  }

  lemma SendAppends(tape: Tape, leg: ExecutionLeg, planType: PlanType, w: World)
    ensures var (outcome, after) := Send(tape, leg, planType, false, w);
            && |after.sent| == |w.sent| + 1 && w.sent <= after.sent
            && Carries(after.sent[|w.sent|], planType, leg) && after.sent[|w.sent|].outcome == outcome
  {
  }

  lemma GuardedSends(tape: Tape, tolerances: map<BrokerName, real>, plan: PairExecutionPlan, ccfLeg: ExecutionLeg,
                     umcLeg: ExecutionLeg, w: World)
    ensures LegsInOrder(AfterGuard(tape, tolerances, plan, ccfLeg, umcLeg, w).world.sent, |w.sent|, plan.planType,
                        ccfLeg, umcLeg)
  {
    hide Send, Observe, AfterFirstFailure, AfterSecondFailure, Combined, Carries, LegsInOrder, OnlyRemedies;
    var (before, w1) := Observe(tape, plan, |plan.legs|, w);
    var (ccf, w2) := Send(tape, ccfLeg, plan.planType, false, w1);
    SendAppends(tape, ccfLeg, plan.planType, w1);
    if ccf.status != Filled {
      FailuresOnlyRemedy(tape, tolerances, plan, ccfLeg, umcLeg, ccf, ccf, before, w2);
      OneLegInOrder(w1.sent, w2.sent, AfterFirstFailure(tape, plan, ccfLeg, ccf, w2).world.sent, plan.planType, ccfLeg,
                    umcLeg);
    } else {
      var (umc, w3) := Send(tape, umcLeg, plan.planType, false, w2);
      SendAppends(tape, umcLeg, plan.planType, w2);
      FailuresOnlyRemedy(tape, tolerances, plan, ccfLeg, umcLeg, ccf, umc, before, w3);
      TwoLegsInOrder(w1.sent, w2.sent, w3.sent, w3.sent, plan.planType, ccfLeg, umcLeg);
      TwoLegsInOrder(w1.sent, w2.sent, w3.sent,
                     AfterSecondFailure(tape, tolerances, plan, ccfLeg, umcLeg, ccf, umc, before, w3).world.sent,
                     plan.planType, ccfLeg, umcLeg);
    }
  }

  lemma OneLegInOrder(before: seq<Dispatch>, sent: seq<Dispatch>, after: seq<Dispatch>, planType: PlanType,
                      ccfLeg: ExecutionLeg, umcLeg: ExecutionLeg)
    requires before <= sent <= after && |sent| == |before| + 1 && Carries(sent[|before|], planType, ccfLeg)
    requires sent[|before|].outcome.status != Filled && OnlyRemedies(after, |sent|)
    ensures LegsInOrder(after, |before|, planType, ccfLeg, umcLeg)
  {
    hide Carries;
  }

  lemma TwoLegsInOrder(before: seq<Dispatch>, first: seq<Dispatch>, sent: seq<Dispatch>, after: seq<Dispatch>,
                       planType: PlanType, ccfLeg: ExecutionLeg, umcLeg: ExecutionLeg)
    requires before <= first <= sent <= after && |first| == |before| + 1 && |sent| == |before| + 2
    requires Carries(first[|before|], planType, ccfLeg) && first[|before|].outcome.status == Filled
    requires Carries(sent[|first|], planType, umcLeg)
    ensures OnlyRemedies(after, |sent|) ==> LegsInOrder(after, |before|, planType, ccfLeg, umcLeg)
    ensures OnlyRemedies(sent, |sent|)
  {
    hide Carries;
  }

  lemma SameLegsClear(tape: Tape, tolerances: map<BrokerName, real>, a: PairExecutionPlan, b: PairExecutionPlan,
                      now: nat)
    requires a.legs == b.legs && a.planType == b.planType
    ensures AllClear(tape, tolerances, a, now) <==> AllClear(tape, tolerances, b, now)
  {
    forall k: nat | k < |a.legs|
      ensures Clears(tape, tolerances, a, k, now) <==> Clears(tape, tolerances, b, k, now)
    {
    }
  }

  /**
   When anything is sent at all: exactly when the plan was recorded with both its legs and each venue answers with what
   the plan needs to find there. Then CCF goes first and UMC follows exactly if CCF reported FILLED. Otherwise the run
   is a rejection that sends nothing.
   */
  lemma SendsExactlyWhen(tape: Tape, tolerances: map<BrokerName, real>, plan: PairExecutionPlan, w: World)
    requires plan.status == Recorded ==> LivePlanOk(plan, true)
    ensures var run := Protocol(tape, tolerances, plan, w);
            && (run.world.sent != w.sent <==> plan.status == Recorded && AllClear(tape, tolerances, plan, w.now))
            && (run.world.sent == w.sent ==>
                  run.outcome == Outcome(OutcomeStatus.Rejected, [], Some(Paused)) && run.events == [])
            && (run.world.sent != w.sent ==>
                  && |plan.legs| == 2 && plan.legs[0].broker != plan.legs[1].broker
                  && var (ccf, umc) := if plan.legs[0].broker == FubonCcf then (0, 1) else (1, 0);
                     LegsInOrder(run.world.sent, |w.sent|, plan.planType, plan.legs[ccf], plan.legs[umc]))
  {
    if plan.status == Recorded {
      LivePlanHasBothLegs(plan, true);
      var n := |plan.legs|;
      GuardPassesExactlyWhen(tape, tolerances, plan, n, w);
      var (checks, w1) := Guard(tape, tolerances, plan, n, w);
      hide Guard, AfterGuard, Clears;
      GuardedSends(tape, tolerances, plan, SingleLeg(plan, FubonCcf).value, SingleLeg(plan, IbkrUmc).value, w1);
    }
  }

  /** The venues as the coordinator meets them: callable, stateful, and free to misbehave. */
  class Brokers {
    const tape: Tape
    var world: World

    constructor (tape: Tape, held: Account)
      ensures this.tape == tape && world == StartOfRun(0, held)
    {
      this.tape := tape;
      this.world := StartOfRun(0, held);
    }

    method Execute(leg: ExecutionLeg, planType: PlanType, emergency: bool) returns (outcome: Outcome)
      modifies this
      ensures (outcome, world) == Send(tape, leg, planType, emergency, old(world))
    {
      var (reported, after) := Send(tape, leg, planType, emergency, world);
      world := after;
      outcome := reported;
    }

    method ReadPosition(broker: BrokerName) returns (reply: ReadReply)
      modifies this
      ensures (reply, world) == Read(tape, broker, old(world))
    {
      var (answer, after) := Read(tape, broker, world);
      world := after;
      reply := answer;
    }
  }

  class RealExecutionCoordinator {
    const ccfFirst: bool
    const tolerances: map<BrokerName, real>
    const brokers: Brokers
    var recordedPlans: seq<PairExecutionPlan>
    var recordedEvents: seq<Event>
    var recordedOutcomes: seq<Outcome>

    constructor (brokers: Brokers, ccfFirst: bool, tolerances: map<BrokerName, real>)
      ensures this.brokers == brokers && this.ccfFirst == ccfFirst && this.tolerances == tolerances
      ensures recordedPlans == [] && recordedEvents == [] && recordedOutcomes == []
    {
      this.brokers, this.ccfFirst, this.tolerances := brokers, ccfFirst, tolerances;
      recordedPlans, recordedEvents, recordedOutcomes := [], [], [];
    }

    /** Every path records the plan, its events in order, and exactly one outcome: the one returned. */
    method Execute(plan: PairExecutionPlan) returns (recorded: PairExecutionPlan, outcome: Outcome)
      modifies this, brokers
      ensures recorded == plan.(status := recorded.status, checks := recorded.checks)
      ensures recorded.status == (if LivePlanOk(plan, ccfFirst) then Recorded else PlanStatus.Rejected)
      ensures var run := Protocol(brokers.tape, tolerances, recorded, old(brokers.world));
              && outcome == run.outcome
              && brokers.world == run.world
              && recordedEvents == old(recordedEvents) + run.events
      ensures brokers.world.sent != old(brokers.world.sent)
              <==> LivePlanOk(plan, ccfFirst) && AllClear(brokers.tape, tolerances, plan, old(brokers.world.now))
      ensures recordedPlans == old(recordedPlans) + [recorded]
      ensures recordedOutcomes == old(recordedOutcomes) + [outcome]
    {
      recorded := ValidateLivePlan(plan, ccfFirst);
      if recorded.status == Validated {
        recorded := recorded.(status := Recorded);
      }
      recordedPlans := recordedPlans + [recorded];
      var ccfLeg, umcLeg := SingleLeg(recorded, FubonCcf), SingleLeg(recorded, IbkrUmc);
      var events: seq<Event> := [];
      if recorded.status != Recorded || ccfLeg.None? || umcLeg.None? {
        outcome := Outcome(OutcomeStatus.Rejected, [], Some(Paused));
      } else {
        var passed := VerifyPlanAgainstBroker(recorded);
        if !passed {
          outcome := Outcome(OutcomeStatus.Rejected, [], Some(Paused));
        } else {
          outcome, events := SendLegs(recorded, ccfLeg.value, umcLeg.value);
        }
      }
      recordedEvents := recordedEvents + events;
      recordedOutcomes := recordedOutcomes + [outcome];
      SendsExactlyWhen(brokers.tape, tolerances, recorded, old(brokers.world));
      SameLegsClear(brokers.tape, tolerances, plan, recorded, old(brokers.world.now));
    }

    method VerifyPlanAgainstBroker(plan: PairExecutionPlan) returns (passed: bool)
      modifies brokers
      ensures var (checks, after) := Guard(brokers.tape, tolerances, plan, |plan.legs|, old(brokers.world));
              brokers.world == after && passed == GuardPassed(checks)
      ensures passed <==> AllClear(brokers.tape, tolerances, plan, old(brokers.world.now))
    {
      var checks: seq<PositionCheck> := [];
      for i := 0 to |plan.legs|
        invariant (checks, brokers.world) == Guard(brokers.tape, tolerances, plan, i, old(brokers.world))
      {
        var leg := plan.legs[i];
        var reply := brokers.ReadPosition(leg.broker);
        checks := checks + [CheckPosition(plan, leg, reply, Tolerance(tolerances, leg.broker))];
      }
      passed := forall c :: c in checks ==> c.passed;
      GuardPassesExactlyWhen(brokers.tape, tolerances, plan, |plan.legs|, old(brokers.world));
    }

    method ObservedPositions(plan: PairExecutionPlan) returns (observed: map<BrokerName, Option<real>>)
      modifies brokers
      ensures (observed, brokers.world) == Observe(brokers.tape, plan, |plan.legs|, old(brokers.world))
    {
      observed := map[];
      for i := 0 to |plan.legs|
        invariant (observed, brokers.world) == Observe(brokers.tape, plan, i, old(brokers.world))
      {
        var reply := brokers.ReadPosition(plan.legs[i].broker);
        observed := observed[plan.legs[i].broker := AsObserved(reply)];
      }
    }

    method SecondLegMoved(leg: ExecutionLeg, before: map<BrokerName, Option<real>>) returns (moved: Option<bool>)
      modifies brokers
      ensures (moved, brokers.world) == LegMoved(brokers.tape, tolerances, leg, before, old(brokers.world))
    {
      if leg.broker !in before || before[leg.broker].None? {
        return None;
      }
      var reply := brokers.ReadPosition(leg.broker);
      if reply.Answer? {
        moved := Some(Abs(reply.quantity - before[leg.broker].value) > Tolerance(tolerances, leg.broker));
      } else {
        moved := None;
      }
    }

    method HandleExposureBreach(plan: PairExecutionPlan, exposed: seq<Exposed>)
      returns (emergencies: seq<Outcome>, events: seq<Event>)
      modifies brokers
      ensures (emergencies, events, brokers.world) == Unwind(brokers.tape, plan, exposed, old(brokers.world))
    {
      emergencies, events := [], [];
      for i := 0 to |exposed|
        invariant (emergencies, events, brokers.world) == Unwind(brokers.tape, plan, exposed[..i], old(brokers.world))
      {
        var (leg, quantity) := exposed[i];
        var emergency := EmergencyClosePlan(plan, leg, quantity);
        events := events + [EmergencyCloseAttempted(leg.broker, quantity)];
        var outcome := brokers.Execute(emergency.legs[0], emergency.planType, true);
        emergencies := emergencies + [outcome];
        if outcome.status == Filled {
          events := events + [EmergencyCloseFilled(leg.broker)];
        } else {
          events := events + [EmergencyCloseFailed(leg.broker), CriticalManualInterventionRequired];
        }
        assert exposed[..i + 1][..i] == exposed[..i];
      }
      assert exposed[..|exposed|] == exposed;
    }

    method SendLegs(plan: PairExecutionPlan, ccfLeg: ExecutionLeg, umcLeg: ExecutionLeg)
      returns (outcome: Outcome, events: seq<Event>)
      modifies brokers
      ensures Run(outcome, events, brokers.world)
              == AfterGuard(brokers.tape, tolerances, plan, ccfLeg, umcLeg, old(brokers.world))
    {
      var before := ObservedPositions(plan);
      var emergencies: seq<Outcome> := [];
      events := [];
      var ccf := brokers.Execute(ccfLeg, plan.planType, false);
      if ccf.status != Filled {
        var filled := LegFilled(ccf, ccfLeg);
        if filled > 0.0 {
          emergencies, events := HandleExposureBreach(plan, [(ccfLeg, filled)]);
          events := [ExposureBreach, SingleLegExposure] + events;
        }
        outcome := Combined(ccf.status, [ccf], emergencies);
        return;
      }
      var umc := brokers.Execute(umcLeg, plan.planType, false);
      if umc.status == Filled {
        outcome := Combined(Filled, [ccf, umc], []);
        return;
      }
      var moved := SecondLegMoved(umcLeg, before);
      if moved == Some(false) {
        var umcFilled := LegFilled(umc, umcLeg);
        var exposed := [(ccfLeg, LegFilled(ccf, ccfLeg))];
        var breach := SingleLegExposure;
        if umcFilled > 0.0 {
          exposed := exposed + [(umcLeg, umcFilled)];
          breach := ImbalancedPairExposure;
        }
        emergencies, events := HandleExposureBreach(plan, exposed);
        events := [ExposureBreach, breach] + events;
      } else {
        var after := ObservedPositions(plan);
        events := [UnverifiedSecondLeg, CriticalManualInterventionRequired];
      }
      outcome := Combined(umc.status, [ccf, umc], emergencies);
    }
  }
}
