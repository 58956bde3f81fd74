/** The UMC adapter: whole shares, a classification earned from three tiers of evidence, and the outcome it becomes. */
module IbkrAdapter {
  import opened Models
  import opened Intent
  import opened Coordinator
  import opened Exposure

  const TERMINAL_UNFILLED := {"Cancelled", "ApiCancelled", "Inactive"}
  const SHARE_TOLERANCE := 0.000000001

  /** What an order's status says: the first tier is the event stream, the second the list of open orders. */
  datatype OrderView = OrderView(status: string, filled: real, remaining: real)

  /** One look at the account: shares executed under the order id and the position. */
  datatype Look = Look(executed: real, position: real)

  datatype Classification = AsFilled | AsFailed | AsUnknown

  datatype Confirmation = Confirmation(classification: Classification, filled: real)

  /** An event can be missed, so an order that is not done is looked up in the order book. */
  function LastView(event: OrderView, done: bool, booked: Option<OrderView>): OrderView {
    if !done && booked.Some? then booked.value else event
  }

  predicate ReadsUnfilled(view: OrderView) {
    view.status in TERMINAL_UNFILLED && view.filled == 0.0
  }

  predicate ReadsFilled(view: OrderView, shares: nat) {
    view.status == "Filled" || (view.filled >= shares as real && view.remaining <= 0.0)
  }

  /** How often the account is looked at again: one slice at a time until the settle budget is used up. */
  function Slices(settleSeconds: real, pollSeconds: real): nat
    requires pollSeconds > 0.0
  {
    if settleSeconds <= 0.0 then 0
    else
      var whole := (settleSeconds / pollSeconds).Floor;
      assert settleSeconds / pollSeconds > 0.0;
      if whole as real == settleSeconds / pollSeconds then whole else whole + 1
  }

  predicate Untouched(look: Look, before: real) {
    look.executed == 0.0 && look.position == before
  }

  /** The look the confirmation rests on: the first that shows anything, or the last one allowed. */
  function Settled(looks: nat -> Look, before: real, k: nat, last: nat): Look
    requires k <= last
    decreases last - k
  {
    if k == last || !Untouched(looks(k), before) then looks(k) else Settled(looks, before, k + 1, last)
  }

  /** Only a report of nothing filled is worth waiting on. */
  function Patience(view: OrderView, slices: nat): nat {
    if ReadsUnfilled(view) then slices else 0
  }

  function Confirm(side: OrderSide, shares: nat, view: OrderView, before: real, look: Look): Confirmation {
    var moved := look.position - before;
    var deltaConfirms := Abs(moved - side.Sign() * shares as real) <= SHARE_TOLERANCE;
    var executionsConfirm := Abs(look.executed - shares as real) <= SHARE_TOLERANCE;
    if ReadsFilled(view, shares) then Confirmation(AsFilled, Max(view.filled, shares as real))
    else if executionsConfirm || deltaConfirms then
      Confirmation(AsFilled, Max(Max(view.filled, look.executed), shares as real))
    else if look.executed > 0.0 || moved != 0.0 then Confirmation(AsUnknown, Max(view.filled, look.executed))
    else if ReadsUnfilled(view) then Confirmation(AsFailed, view.filled)
    else Confirmation(AsUnknown, view.filled)
  }

  lemma SliceCount(settleSeconds: real, pollSeconds: real, k: nat)
    requires pollSeconds > 0.0
    ensures k < Slices(settleSeconds, pollSeconds) <==> Mul(k as real, pollSeconds) < settleSeconds
  {
    hide Mul;
    MulOfRatio(settleSeconds, pollSeconds);
    var ratio := settleSeconds / pollSeconds;
    if k as real < ratio {
      if Mul(ratio, pollSeconds) <= Mul(k as real, pollSeconds) {
        MulCancels(ratio, k as real, pollSeconds);
      }
    } else {
      MulMonotone(ratio, k as real, pollSeconds);
    }
    NonPositiveRatio(settleSeconds, pollSeconds);
  }

  lemma NonPositiveRatio(x: real, y: real)
    requires y > 0.0
    ensures x <= 0.0 <==> x / y <= 0.0
  {
  }

  lemma NextSlice(k: nat, pollSeconds: real)
    ensures Mul((k + 1) as real, pollSeconds) == Mul(k as real, pollSeconds) + pollSeconds
    ensures Mul(0.0, pollSeconds) == 0.0
  {
  }

  /** Waits out the settle budget for the account to catch up, then classifies what is known. */
  method PlaceAndConfirm(side: OrderSide, shares: nat, event: OrderView, done: bool, booked: Option<OrderView>,
                         before: real, looks: nat -> Look, settleSeconds: real, pollSeconds: real)
    returns (confirmation: Confirmation, look: Look)
    requires pollSeconds > 0.0
    ensures var view := LastView(event, done, booked);
            && look == Settled(looks, before, 0, Patience(view, Slices(settleSeconds, pollSeconds)))
            && confirmation == Confirm(side, shares, view, before, look)
  {
    hide Confirm, Slices, Mul, Settled;
    var view := LastView(event, done, booked);
    var deadline := if ReadsUnfilled(view) then settleSeconds else 0.0;
    ghost var last := Patience(view, Slices(settleSeconds, pollSeconds));
    var k := 0;
    look := looks(0);
    NextSlice(0, pollSeconds);
    SliceCount(settleSeconds, pollSeconds, 0);
    while deadline > 0.0 && Untouched(look, before)
      invariant k <= last && look == looks(k)
      invariant Settled(looks, before, 0, last) == Settled(looks, before, k, last)
      invariant deadline > 0.0 <==> k < last
      invariant deadline > 0.0 ==> deadline == settleSeconds - Mul(k as real, pollSeconds)
      decreases last - k
    {
      SettledUnfolds(looks, before, k, last);
      NextSlice(k, pollSeconds);
      SliceCount(settleSeconds, pollSeconds, k + 1);
      deadline := deadline - Min(pollSeconds, deadline);
      k := k + 1;
      look := looks(k);
    }
    SettledUnfolds(looks, before, k, last);
    confirmation := Confirm(side, shares, view, before, look);
  }

  lemma SettledUnfolds(looks: nat -> Look, before: real, k: nat, last: nat)
    requires k <= last
    ensures Settled(looks, before, k, last)
         == if k == last || !Untouched(looks(k), before) then looks(k) else Settled(looks, before, k + 1, last)
  {
  }

  // ---------------------------------------------------------------- the outcome

  /** Everything the gateway shows about one order; a request that raises shows nothing. */
  datatype Gateway =
    | GatewayRaised
    | Shown(event: OrderView, done: bool, booked: Option<OrderView>, before: real, looks: nat -> Look, average: real)

  datatype Stamp = Stamp(orderId: RecordId, fillId: RecordId, now: int, row: int)

  function ReportedFill(leg: ExecutionLeg, filled: real, average: real, stamp: Stamp): Fill {
    Fill(stamp.fillId, stamp.orderId, leg.broker, leg.symbol, leg.side, filled,
         if average != 0.0 then average else leg.price, leg.feeTwd, stamp.now, stamp.row)
  }

  function OutcomeOf(leg: ExecutionLeg, c: Confirmation, average: real, stamp: Stamp): Outcome {
    match c.classification
    case AsFilled => Outcome(Filled, [ReportedFill(leg, c.filled, average, stamp)], None)
    case AsFailed => Outcome(Failed, [], None)
    case AsUnknown =>
      Outcome(Unknown, if c.filled > 0.0 then [ReportedFill(leg, c.filled, average, stamp)] else [], Some(Paused))
  }

  function SettledLook(gateway: Gateway, slices: nat): Look
    requires gateway.Shown?
  {
    var view := LastView(gateway.event, gateway.done, gateway.booked);
    Settled(gateway.looks, gateway.before, 0, Patience(view, slices))
  }

  /** One leg at the venue: refused before sending, unknowable after an exception, otherwise classified. */
  function Execute(leg: ExecutionLeg, gatesOpen: bool, gateway: Gateway, slices: nat, stamp: Stamp): Outcome {
    var shares := WholeShares(leg.quantity);
    if !gatesOpen || shares == 0 then Outcome(OutcomeStatus.Rejected, [], Some(Paused))
    else
      match gateway
      case GatewayRaised => Outcome(Unknown, [], Some(Paused))
      case Shown(event, done, booked, before, _, average) =>
        OutcomeOf(leg, Confirm(leg.side, shares, LastView(event, done, booked), before, SettledLook(gateway, slices)),
                  average, stamp)
  }

  // ---------------------------------------------------------------- main results

  /** Executions only add up. */
  ghost predicate CountsUp(gateway: Gateway) {
    gateway.Shown? ==> forall k: nat :: gateway.looks(k).executed >= 0.0
  }

  lemma {:induction false} SettledIsALook(looks: nat -> Look, before: real, k: nat, last: nat) returns (i: nat)
    requires k <= last
    ensures k <= i <= last && Settled(looks, before, k, last) == looks(i)
    ensures forall j :: k <= j < i ==> Untouched(looks(j), before)
    ensures i < last ==> !Untouched(looks(i), before)
    decreases last - k
  {
    if k == last || !Untouched(looks(k), before) {
      i := k;
    } else {
      i := SettledIsALook(looks, before, k + 1, last);
    }
  }

  /**
   FAILED is earned: an order that was placed is called failed exactly when its status is terminal with nothing filled
   and every look over the whole settle budget found no execution and the position where it was.
   */
  lemma FailedExactlyWhen(leg: ExecutionLeg, gateway: Gateway, slices: nat, stamp: Stamp)
    requires CountsUp(gateway) && WholeShares(leg.quantity) > 0
    ensures Execute(leg, true, gateway, slices, stamp).status == Failed <==>
              && gateway.Shown? && ReadsUnfilled(LastView(gateway.event, gateway.done, gateway.booked))
              && forall k :: 0 <= k <= slices ==> Untouched(gateway.looks(k), gateway.before)
  {
    if gateway.Shown? {
      var view := LastView(gateway.event, gateway.done, gateway.booked);
      var i := SettledIsALook(gateway.looks, gateway.before, 0, Patience(view, slices));
      assert ReadsUnfilled(view) ==> !ReadsFilled(view, WholeShares(leg.quantity));
      hide WholeShares, Settled;
    }
  }

  /** What the adapter reports of a leg it placed. */
  function Reported(leg: ExecutionLeg, gateway: Gateway, slices: nat): real
    requires gateway.Shown?
  {
    Confirm(leg.side, WholeShares(leg.quantity), LastView(gateway.event, gateway.done, gateway.booked), gateway.before,
            SettledLook(gateway, slices)).filled
  }

  lemma ReportedFills(leg: ExecutionLeg, gateway: Gateway, slices: nat, stamp: Stamp)
    requires WholeShares(leg.quantity) > 0 && gateway.Shown?
    requires LastView(gateway.event, gateway.done, gateway.booked).filled >= 0.0
    ensures LegFilled(Execute(leg, true, gateway, slices, stamp), leg) == Reported(leg, gateway, slices)
  {
    hide Settled, WholeShares;
    OneReport(leg, Reported(leg, gateway, slices), gateway.average, stamp);
  }

  lemma OneReport(leg: ExecutionLeg, filled: real, average: real, stamp: Stamp)
    ensures FilledQuantity([ReportedFill(leg, filled, average, stamp)], leg.broker, leg.symbol) == filled
  {
    var fills := [ReportedFill(leg, filled, average, stamp)];
    assert fills[1..] == [];
  }

  /**
   A partial fill is never invisible: whatever the outcome is called, it reports every share the settled look shows,
   unless the status alone already read FILLED for fewer.
   */
  lemma ExecutedSharesReported(leg: ExecutionLeg, gateway: Gateway, slices: nat, stamp: Stamp)
    requires WholeShares(leg.quantity) > 0 && gateway.Shown?
    requires LastView(gateway.event, gateway.done, gateway.booked).filled >= 0.0
    ensures var shares, view := WholeShares(leg.quantity), LastView(gateway.event, gateway.done, gateway.booked);
            var executed := SettledLook(gateway, slices).executed;
            LegFilled(Execute(leg, true, gateway, slices, stamp), leg) >= executed <==>
              !(ReadsFilled(view, shares) && executed > Max(view.filled, shares as real))
  {
    ReportedFills(leg, gateway, slices, stamp);
    hide Settled, WholeShares, FilledQuantity;
  }

  /** Some tier of evidence says that everything sent was filled: the status, the executions, or the position. */
  predicate Confirms(leg: ExecutionLeg, gateway: Gateway, slices: nat) {
    var shares := WholeShares(leg.quantity);
    && shares > 0 && gateway.Shown?
    && var (look, view) := (SettledLook(gateway, slices), LastView(gateway.event, gateway.done, gateway.booked));
       || view.status == "Filled" || (view.filled >= shares as real && view.remaining <= 0.0)
       || Abs(look.executed - shares as real) <= SHARE_TOLERANCE
       || Abs(look.position - gateway.before - leg.side.Sign() * shares as real) <= SHARE_TOLERANCE
  }

  /** FILLED is what the evidence says, no more and no less. */
  lemma FilledExactlyWhen(leg: ExecutionLeg, gatesOpen: bool, gateway: Gateway, slices: nat, stamp: Stamp)
    ensures Execute(leg, gatesOpen, gateway, slices, stamp).status == Filled
            <==> gatesOpen && Confirms(leg, gateway, slices)
  {
    hide WholeShares, Settled;
  }

  /** More shares than were sent, according to the tier the classification rests on. */
  predicate Overfilled(leg: ExecutionLeg, gateway: Gateway, slices: nat)
    requires gateway.Shown?
  {
    var shares, view := WholeShares(leg.quantity), LastView(gateway.event, gateway.done, gateway.booked);
    || view.filled > shares as real
    || (!ReadsFilled(view, shares) && SettledLook(gateway, slices).executed > shares as real)
  }

  /**
   The adapter keeps the coordinator's contract on every leg, however fractional, unless the gates are open and the
   evidence that confirms the order shows more shares than were sent: that, and nothing else, breaks it.
   */
  lemma KeepsContractExactlyWhen(leg: ExecutionLeg, planType: PlanType, emergency: bool, moved: real, gatesOpen: bool,
                                 gateway: Gateway, slices: nat, stamp: Stamp)
    requires leg.broker == IbkrUmc && leg.price > 0.0
    requires gateway.Shown? ==>
               var view, look := LastView(gateway.event, gateway.done, gateway.booked), SettledLook(gateway, slices);
               && gateway.average >= 0.0 && view.filled >= 0.0 && look.executed >= 0.0
               && IsWhole(view.filled) && IsWhole(look.executed)
    ensures Honest(Dispatch(leg, planType, emergency, false, Execute(leg, gatesOpen, gateway, slices, stamp), moved))
            <==> !(gatesOpen && Confirms(leg, gateway, slices) && Overfilled(leg, gateway, slices))
  {
    FilledExactlyWhen(leg, gatesOpen, gateway, slices, stamp);
    if gatesOpen && WholeShares(leg.quantity) > 0 && gateway.Shown? {
      ReportedFills(leg, gateway, slices, stamp);
      var shares := WholeShares(leg.quantity);
      assert IsWhole(shares as real);
      hide Settled, WholeShares, FilledQuantity;
    }
  }

  /**
   What each outcome says, and what it tells the strategy to do: refused before anything is sent, unknown when the venue
   could not be asked or its evidence is incomplete, and only these two recommend a pause by themselves.
   */
  lemma StatusExactlyWhen(leg: ExecutionLeg, gatesOpen: bool, gateway: Gateway, slices: nat, stamp: Stamp)
    ensures var o := Execute(leg, gatesOpen, gateway, slices, stamp);
            && (o.status == OutcomeStatus.Rejected <==> !gatesOpen || Abs(leg.quantity) < 1.0)
            && (o.status == OutcomeStatus.Rejected ==> o.fills == [])
            && (gatesOpen && Abs(leg.quantity) >= 1.0 && gateway.GatewayRaised? ==>
                  o.status == Unknown && o.fills == [])
            && o.status in {Filled, OutcomeStatus.Rejected, Failed, Unknown}
            && (o.recommended == Some(Paused) <==> o.status in {OutcomeStatus.Rejected, Unknown})
            && (o.recommended == None <==> o.status in {Filled, Failed})
            && (o.status == Failed ==> o.fills == [])
  {
    assert WholeShares(leg.quantity) == 0 <==> Abs(leg.quantity) < 1.0;
    hide WholeShares, Settled;
  }

  /**
   Whatever is reported as filled is one fill of the leg at the venue's average price, or at the leg's own when the
   venue gives none: as many shares as the status, the settled executions or, once everything is confirmed, the order
   show.
   */
  lemma FillIsEvidence(leg: ExecutionLeg, gateway: Gateway, slices: nat, stamp: Stamp)
    requires Execute(leg, true, gateway, slices, stamp).fills != []
    ensures gateway.Shown? && |Execute(leg, true, gateway, slices, stamp).fills| == 1
    ensures var (o, view) := (Execute(leg, true, gateway, slices, stamp),
                              LastView(gateway.event, gateway.done, gateway.booked));
            var (f, executed, shares) := (o.fills[0], SettledLook(gateway, slices).executed,
                                          WholeShares(leg.quantity) as real);
            && f == Fill(stamp.fillId, stamp.orderId, leg.broker, leg.symbol, leg.side, f.quantity, f.price, leg.feeTwd,
                         stamp.now, stamp.row)
            && f.price == (if gateway.average == 0.0 then leg.price else gateway.average)
            && f.quantity in {view.filled, executed, shares}
            && (o.status == Filled ==> f.quantity >= shares && f.quantity >= view.filled)
            && (o.status != Filled ==> f.quantity >= view.filled && f.quantity > 0.0)
  {
    hide WholeShares, Settled;
  }

  /** A broker that reports two shares filled of an order for one and a half: FILLED for more than the leg. */
  lemma OverfillBreaksContract(leg: ExecutionLeg, slices: nat, stamp: Stamp)
    requires leg.broker == IbkrUmc && leg.price > 0.0 && leg.quantity == 1.5
    ensures var view := OrderView("Filled", 2.0, 0.0);
            var gateway := Shown(view, true, None, 0.0, (k: nat) => Look(2.0, 2.0), 0.0);
            var o := Execute(leg, true, gateway, slices, stamp);
            o.status == Filled && LegFilled(o, leg) == 2.0 && !Honest(Dispatch(leg, Entry, false, false, o, 2.0))
  {
    var gateway := Shown(OrderView("Filled", 2.0, 0.0), true, None, 0.0, (k: nat) => Look(2.0, 2.0), 0.0);
    assert WholeShares(1.5) == 1;
    ReportedFills(leg, gateway, slices, stamp);
  }
}
