/**
 One CCF order from its callbacks to its outcome: the fill listener, the wait, the position and the report together.
 */
module FubonConfirmation {
  import opened Models
  import opened Intent
  import opened Coordinator
  import opened Exposure
  import opened FubonAdapter
  import FillListener

  /**
   An order that was placed: its callbacks before and after its keys are known, how many of the later ones have come at
   each glance, what every history query and both position readings answer, and the limits in force.
   */
  datatype PlacedOrder = PlacedOrder(
    leg: ExecutionLeg,
    expected: Option<real>,
    placed: OrderRow,
    listening: bool,
    early: seq<FillListener.Callback>,
    keys: set<string>,
    late: seq<FillListener.Callback>,
    heard: nat -> nat,
    queries: nat -> Option<seq<OrderRow>>,
    positionBefore: Option<real>,
    positionAfter: Option<real>,
    submittedAt: real,
    window: Option<real>,
    grace: bool,
    attempts: nat
  )

  datatype Stamp = Stamp(orderId: RecordId, fillId: RecordId, now: int, row: int)

  function HeardBy(o: PlacedOrder, glance: nat): seq<FillListener.Callback> {
    if o.heard(glance) <= |o.late| then o.late[..o.heard(glance)] else o.late
  }

  function LookAt(o: PlacedOrder, glance: nat): Look {
    var waiter := FillListener.Run(o.early, o.keys, HeardBy(o, glance)).waiter;
    Look(waiter.filledLots, FillListener.AveragePrice(waiter.fillEvents),
         if waiter.terminalStatus.Some? then waiter.terminalStatus.value else "")
  }

  function Requested(leg: ExecutionLeg): nat {
    if leg.quantity >= 0.0 then leg.quantity.Floor else 0
  }

  function WatchOf(o: PlacedOrder): Watch {
    Watch(o.listening, (glance: nat) => LookAt(o, glance), o.queries, Requested(o.leg), o.keys, o.submittedAt, o.window,
          o.grace, o.attempts)
  }

  /** The position is asked only when callbacks fall short, and speaks only when it was readable before and after. */
  function PositionSays(o: PlacedOrder, wait: WaitResult): Option<real> {
    if o.positionBefore.Some? && wait.lots < Requested(o.leg) as real - DUST && o.positionAfter.Some?
    then Some(ConfirmedLots(o.leg.side, Requested(o.leg), o.positionBefore.value, o.positionAfter.value))
    else None
  }

  function Confirm(o: PlacedOrder, stamp: Stamp): Outcome {
    var wait := Await(WatchOf(o), o.placed);
    OutcomeFromOrder(o.leg, o.expected, Requested(o.leg), o.placed, wait, PositionSays(o, wait), stamp.orderId,
                     stamp.fillId, stamp.now, stamp.row)
  }

  // ---------------------------------------------------------------- what a venue may say

  predicate SaneFill(row: FillListener.Row) {
    IsWhole(row.lots) && row.lots >= 0.0 && (row.price.Some? ==> row.price.value >= 0.0)
  }

  predicate SaneFills(rows: seq<FillListener.Row>) {
    forall row :: row in rows ==> SaneFill(row)
  }

  predicate SaneRow(row: OrderRow) {
    (row.averagePrice.Some? ==> row.averagePrice.value >= 0.0)
      && (row.filledMoney.Some? ==> row.filledMoney.value >= 0.0)
  }

  /** Whole lots and no negative prices anywhere; nothing is said about how many lots, or in what order. */
  ghost predicate SaneVenue(o: PlacedOrder) {
    && SaneFills(FillListener.FillRows(o.early)) && SaneFills(FillListener.FillRows(o.late))
    && SaneRow(o.placed)
    && (forall i: nat :: o.queries(i).Some? ==> forall row :: row in o.queries(i).value ==> SaneRow(row))
    && (o.expected.Some? ==> o.expected.value >= 0.0)
    && (o.positionBefore.Some? && o.positionAfter.Some? ==> IsWhole(o.positionAfter.value - o.positionBefore.value))
  }

  /** A CCF leg as a recorded plan or an emergency has it. */
  predicate CcfOrder(o: PlacedOrder) {
    o.leg.broker == FubonCcf && IsWhole(o.leg.quantity) && o.leg.quantity > 0.0 && o.leg.price > 0.0
  }

  /** The fills the order has heard of at a glance: the last ones buffered before its keys, and those since. */
  function FillsAt(o: PlacedOrder, glance: nat): seq<FillListener.Row> {
    FillListener.Latest(FillListener.FillRows(o.early), FillListener.BUFFER_SIZE)
    + FillListener.FillRows(HeardBy(o, glance))
  }

  // ---------------------------------------------------------------- from callbacks to lots

  lemma LotsAreDistinctFills(o: PlacedOrder, glance: nat)
    ensures LookAt(o, glance).lots == FillListener.DistinctLots(o.keys, FillsAt(o, glance))
  {
    hide FillListener.Latest;
    FillListener.LateKeysCostOnlyOldRows(o.early, o.keys, HeardBy(o, glance));
    FillListener.KnownFacts(o.keys, FillsAt(o, glance),
                            FillListener.Latest(FillListener.ReportRows(o.early), FillListener.BUFFER_SIZE)
                            + FillListener.ReportRows(HeardBy(o, glance)));
  }

  lemma {:induction false} DistinctLotsWhole(keys: set<string>, rows: seq<FillListener.Row>)
    requires SaneFills(rows)
    ensures IsWhole(FillListener.DistinctLots(keys, rows)) && FillListener.DistinctLots(keys, rows) >= 0.0
  {
    if rows != [] {
      var front, last := rows[..|rows| - 1], rows[|rows| - 1];
      DistinctLotsWhole(keys, front);
      assert last in rows;
      WholesAdd(FillListener.DistinctLots(keys, front), last.lots);
    }
  }

  lemma WholesAdd(x: real, y: real)
    requires IsWhole(x) && IsWhole(y)
    ensures IsWhole(x + y)
  {
    assert x + y == (x.Floor + y.Floor) as real;
  }

  lemma {:induction false} FillRowsPrefix(stream: seq<FillListener.Callback>, n: nat)
    requires n <= |stream|
    ensures forall row :: row in FillListener.FillRows(stream[..n]) ==> row in FillListener.FillRows(stream)
    decreases |stream|
  {
    if n < |stream| {
      FillRowsPrefix(stream[..|stream| - 1], n);
      assert stream[..|stream| - 1][..n] == stream[..n];
    } else {
      assert stream[..n] == stream;
    }
  }

  lemma FillsAtSane(o: PlacedOrder, glance: nat)
    requires SaneVenue(o)
    ensures SaneFills(FillsAt(o, glance))
  {
    if o.heard(glance) <= |o.late| {
      FillRowsPrefix(o.late, o.heard(glance));
    }
  }

  // ---------------------------------------------------------------- from callbacks to prices

  lemma {:induction false} DistinctAreFills(keys: set<string>, rows: seq<FillListener.Row>)
    ensures forall e :: e in FillListener.DistinctFills(keys, rows) ==> e in rows
  {
    if rows != [] {
      DistinctAreFills(keys, rows[..|rows| - 1]);
    }
  }

  lemma AverageOfDistinct(o: PlacedOrder, glance: nat)
    ensures LookAt(o, glance).average
         == FillListener.AveragePrice(FillListener.DistinctFills(o.keys, FillsAt(o, glance)))
  {
    hide FillListener.Latest;
    FillListener.LateKeysCostOnlyOldRows(o.early, o.keys, HeardBy(o, glance));
    FillListener.KnownFacts(o.keys, FillsAt(o, glance),
                            FillListener.Latest(FillListener.ReportRows(o.early), FillListener.BUFFER_SIZE)
                            + FillListener.ReportRows(HeardBy(o, glance)));
  }

  lemma {:induction false} MoneyNonNegative(rows: seq<FillListener.Row>)
    requires SaneFills(rows)
    ensures FillListener.Money(rows) >= 0.0
  {
    if rows != [] {
      var front, last := rows[..|rows| - 1], rows[|rows| - 1];
      MoneyNonNegative(front);
      assert last in rows;
      if FillListener.Counts(last) {
        MulMonotone(0.0, last.price.value, last.lots);
      }
    }
  }

  lemma RatioNonNegative(x: real, y: real)
    requires x >= 0.0 && y > 0.0
    ensures x / y >= 0.0
  {
  }

  lemma AverageNonNegative(o: PlacedOrder, glance: nat)
    requires SaneVenue(o)
    ensures LookAt(o, glance).average.Some? ==> LookAt(o, glance).average.value >= 0.0
  {
    hide FillListener.Money, FillListener.PricedLots;
    AverageOfDistinct(o, glance);
    DistinctAreFills(o.keys, FillsAt(o, glance));
    FillsAtSane(o, glance);
    var events := FillListener.DistinctFills(o.keys, FillsAt(o, glance));
    assert SaneFills(events);
    MoneyNonNegative(events);
    if FillListener.PricedLots(events) > 0.0 {
      RatioNonNegative(FillListener.Money(events), FillListener.PricedLots(events));
    }
  }

  // ---------------------------------------------------------------- through the wait

  /** Waiting reports what the waiter showed at its last glance, and a row the venue gave. */
  predicate Faithful(w: Watch, r: WaitResult) {
    && SaneRow(r.finalRow)
    && r.lots == (if w.hasWaiter then w.looks(r.glance).lots else 0.0)
    && r.average == (if w.hasWaiter then w.looks(r.glance).average else None)
  }

  lemma {:induction false} PollingIsFaithful(w: Watch, attempt: nat, s: Polled)
    requires SaneRow(s.best)
    requires forall i: nat :: w.queries(i).Some? ==> forall row :: row in w.queries(i).value ==> SaneRow(row)
    ensures Faithful(w, PollFrom(w, attempt, s))
    decreases w.attempts - attempt
  {
    hide IsFinal, WithStale, FullLots;
    if attempt < w.attempts {
      var glanced := if w.hasWaiter then s.(looked := s.looked + 1) else s;
      MatchIsARow(w, if w.queries(attempt).Some? then w.queries(attempt).value else []);
      PollingIsFaithful(w, attempt + 1, AfterQuery(w, attempt, glanced));
    }
  }

  lemma MatchIsARow(w: Watch, rows: seq<OrderRow>)
    ensures MatchRow(w, rows).Some? ==> MatchRow(w, rows).value in rows
  {
  }

  lemma WaitingIsFaithful(o: PlacedOrder)
    requires SaneVenue(o)
    ensures Faithful(WatchOf(o), Await(WatchOf(o), o.placed))
  {
    hide PollFrom, LookAt;
    PollingIsFaithful(WatchOf(o), 0, Polled(o.placed, false, [], 0, 0));
    PollingIsFaithful(WatchOf(o), 0, Polled(o.placed, false, [], 0, 2));
  }

  lemma PriceIsPositive(leg: ExecutionLeg, expected: Option<real>, wait: WaitResult, filled: real)
    requires leg.price > 0.0 && (expected.Some? ==> expected.value >= 0.0) && SaneRow(wait.finalRow)
    requires wait.average.Some? ==> wait.average.value >= 0.0
    ensures FillPrice(leg, expected, wait, filled) > 0.0
  {
    if wait.matched && filled > 0.0 && wait.finalRow.filledMoney.Some? {
      RatioNonNegative(wait.finalRow.filledMoney.value, filled);
    }
  }

  // ---------------------------------------------------------------- main results

  /** What waiting came to: distinct matching fills at its last glance, or nothing without a listener. */
  function LotsHeard(o: PlacedOrder): real {
    if o.listening then FillListener.DistinctLots(o.keys, FillsAt(o, Await(WatchOf(o), o.placed).glance)) else 0.0
  }

  lemma WaitHeard(o: PlacedOrder)
    requires SaneVenue(o)
    ensures var wait := Await(WatchOf(o), o.placed);
            && wait.lots == LotsHeard(o) >= 0.0 && IsWhole(wait.lots) && SaneRow(wait.finalRow)
            && (wait.average.Some? ==> wait.average.value >= 0.0)
  {
    hide Await, LookAt, FillsAt;
    WaitingIsFaithful(o);
    var glance := Await(WatchOf(o), o.placed).glance;
    LotsAreDistinctFills(o, glance);
    FillsAtSane(o, glance);
    DistinctLotsWhole(o.keys, FillsAt(o, glance));
    AverageNonNegative(o, glance);
  }

  /**
   On any venue that deals in whole lots and prices that are not negative, whatever callbacks come, however often and in
   whatever order, whatever history shows and wherever the position is: the adapter keeps the coordinator's contract
   exactly when the distinct matching fills at its last glance add up to no more than was asked for.
   */
  lemma KeepsContractExactlyWhen(o: PlacedOrder, planType: PlanType, emergency: bool, stamp: Stamp, moved: real)
    requires CcfOrder(o) && SaneVenue(o)
    ensures Honest(Dispatch(o.leg, planType, emergency, false, Confirm(o, stamp), moved))
            <==> LotsHeard(o) <= o.leg.quantity
  {
    hide Await, LotsHeard, FillPrice, SaneVenue, OutcomeFromOrder, Honest;
    WaitHeard(o);
    var wait := Await(WatchOf(o), o.placed);
    var delta := PositionSays(o, wait);
    if delta.Some? {
      PositionWhole(o);
    }
    assert o.expected.Some? ==> o.expected.value >= 0.0 by { SaneExpectation(o); }
    PriceIsPositive(o.leg, o.expected, wait, FilledLots(Requested(o.leg), wait.lots, delta));
    HonestExactlyWhen(o.leg, planType, emergency, o.expected, Requested(o.leg), o.placed, wait, delta, stamp.orderId,
                      stamp.fillId, stamp.now, stamp.row, moved);
  }

  lemma SaneExpectation(o: PlacedOrder)
    requires SaneVenue(o)
    ensures o.expected.Some? ==> o.expected.value >= 0.0
  {
  }

  lemma PositionWhole(o: PlacedOrder)
    requires SaneVenue(o) && o.positionBefore.Some? && o.positionAfter.Some?
    ensures IsWhole(ConfirmedLots(o.leg.side, Requested(o.leg), o.positionBefore.value, o.positionAfter.value))
  {
    ConfirmedWhole(o.leg.side, Requested(o.leg), o.positionBefore.value, o.positionAfter.value);
  }

  /** How far the position went the order's way, if it could be read before and after. */
  function Movement(o: PlacedOrder): real {
    if o.positionBefore.Some? && o.positionAfter.Some?
    then o.leg.side.Sign() * (o.positionAfter.value - o.positionBefore.value) else 0.0
  }

  /**
   FILLED rests on exactly two things: distinct matching fills for the whole request, or a position that went the
   order's way by all of it. No history row and no status ever makes or unmakes it.
   */
  lemma FilledExactlyWhen(o: PlacedOrder, stamp: Stamp)
    requires CcfOrder(o) && SaneVenue(o)
    ensures Confirm(o, stamp).status == Filled <==> LotsHeard(o) >= o.leg.quantity || Movement(o) >= o.leg.quantity
  {
    hide Await, LotsHeard, SaneVenue, OutcomeFromOrder, ConfirmedLots;
    WaitHeard(o);
    var wait, n := Await(WatchOf(o), o.placed), Requested(o.leg);
    NoFillWithoutEvidence(o.leg, o.expected, n, o.placed, wait, PositionSays(o, wait), stamp.orderId, stamp.fillId,
                          stamp.now, stamp.row);
    WholeGap(wait.lots, n);
    if PositionSays(o, wait).Some? {
      PositionWhole(o);
      WholeGap(PositionSays(o, wait).value, n);
    }
    if o.positionBefore.Some? && o.positionAfter.Some? {
      ConfirmsExactlyWhen(o.leg.side, n, o.positionBefore.value, o.positionAfter.value);
    }
  }

  // ---------------------------------------------------------------- the price it reports

  /** The distinct matching fills at the last glance, none without a listener. */
  function Heard(o: PlacedOrder): seq<FillListener.Row> {
    if o.listening then FillListener.DistinctFills(o.keys, FillsAt(o, Await(WatchOf(o), o.placed).glance)) else []
  }

  /** A fill that says what it cost. */
  predicate Priced(row: FillListener.Row) {
    row.lots > 0.0 && row.price.Some? && row.price.value > 0.0
  }

  /** The price a history row gives for a quantity: its own average, else its money per lot. */
  predicate PricedByRow(row: OrderRow, quantity: real, price: real) {
    if row.averagePrice.Some? && row.averagePrice.value != 0.0 then price == row.averagePrice.value
    else row.filledMoney.Some? && Mul(price, quantity) == row.filledMoney.value
  }

  /** The row has such a price at all. */
  predicate RowTells(row: OrderRow) {
    (row.averagePrice.Some? && row.averagePrice.value != 0.0)
    || (row.filledMoney.Some? && row.filledMoney.value != 0.0)
  }

  /**
   Whatever is reported as filled carries the best price there is evidence for: the distinct matching fills' money over
   their lots, without those the matched history row's, without that the expected price, and last the leg's own.
   */
  lemma PriceIsEvidence(o: PlacedOrder, stamp: Stamp)
    requires CcfOrder(o) && SaneVenue(o) && Confirm(o, stamp).fills != []
    ensures var (fills, heard, wait) := (Confirm(o, stamp).fills, Heard(o), Await(WatchOf(o), o.placed));
            && |fills| == 1
            && var f := fills[0];
               && f == Fill(stamp.fillId, stamp.orderId, o.leg.broker, o.leg.symbol, o.leg.side, f.quantity, f.price,
                            o.leg.feeTwd, stamp.now, stamp.row)
               && f.quantity > 0.0
               && if exists r :: r in heard && Priced(r) then
                    FillListener.PricedLots(heard) > 0.0
                    && Mul(f.price, FillListener.PricedLots(heard)) == FillListener.Money(heard)
                  else if wait.matched && RowTells(wait.finalRow) then PricedByRow(wait.finalRow, f.quantity, f.price)
                  else f.price == if o.expected.Some? && o.expected.value != 0.0 then o.expected.value else o.leg.price
  {
    hide Await, FillsAt, FillListener.Money, FillListener.PricedLots, FillListener.AveragePrice, Heard, Confirm, Mul;
    var (wait, f) := (Await(WatchOf(o), o.placed), Confirm(o, stamp).fills[0]);
    WaitHeard(o);
    AverageHeard(o);
    HeardIsSane(o);
    PricedAverage(Heard(o));
    if !o.listening {
      NothingHeard(o);
    }
    ReportedFill(o, stamp);
    PriceChosen(o.leg, o.expected, wait, f.quantity);
  }

  lemma NothingHeard(o: PlacedOrder)
    requires !o.listening
    ensures Heard(o) == []
  {
  }

  lemma ReportedFill(o: PlacedOrder, stamp: Stamp)
    requires Confirm(o, stamp).fills != []
    ensures |Confirm(o, stamp).fills| == 1
    ensures var f := Confirm(o, stamp).fills[0];
            && f.quantity > 0.0 && f.price == FillPrice(o.leg, o.expected, Await(WatchOf(o), o.placed), f.quantity)
            && f == Fill(stamp.fillId, stamp.orderId, o.leg.broker, o.leg.symbol, o.leg.side, f.quantity, f.price,
                         o.leg.feeTwd, stamp.now, stamp.row)
  {
    hide Await, FillPrice, MapStatus, StatusText;
  }

  /** Which price is taken, from what waiting ended with. */
  lemma PriceChosen(leg: ExecutionLeg, expected: Option<real>, wait: WaitResult, filled: real)
    requires filled > 0.0
    ensures var price := FillPrice(leg, expected, wait, filled);
            if wait.average.Some? && wait.average.value != 0.0 then price == wait.average.value
            else if wait.matched && RowTells(wait.finalRow) then PricedByRow(wait.finalRow, filled, price)
            else price == if expected.Some? && expected.value != 0.0 then expected.value else leg.price
  {
    if wait.finalRow.filledMoney.Some? {
      PerLot(wait.finalRow.filledMoney.value, filled);
    }
    hide Mul;
  }

  lemma PerLot(money: real, lots: real)
    requires lots != 0.0
    ensures Mul(money / lots, lots) == money
    ensures money / lots == 0.0 <==> money == 0.0
  {
  }

  /** The average the wait ends with is that of the fills heard. */
  lemma AverageHeard(o: PlacedOrder)
    requires SaneVenue(o)
    ensures Await(WatchOf(o), o.placed).average
         == if o.listening then FillListener.AveragePrice(Heard(o)) else None
  {
    hide Await, LookAt, FillsAt, FillListener.AveragePrice;
    WaitingIsFaithful(o);
    AverageOfDistinct(o, Await(WatchOf(o), o.placed).glance);
  }

  lemma HeardIsSane(o: PlacedOrder)
    requires SaneVenue(o)
    ensures SaneFills(Heard(o))
  {
    hide Await, FillsAt;
    if o.listening {
      var glance := Await(WatchOf(o), o.placed).glance;
      FillsAtSane(o, glance);
      DistinctAreFills(o.keys, FillsAt(o, glance));
    }
  }

  /** An average is positive exactly when some fill carries lots and a positive price. */
  lemma PricedAverage(rows: seq<FillListener.Row>)
    requires SaneFills(rows)
    ensures (exists r :: r in rows && Priced(r)) ==>
              FillListener.PricedLots(rows) > 0.0 && FillListener.AveragePrice(rows).Some?
              && FillListener.AveragePrice(rows).value > 0.0
              && Mul(FillListener.AveragePrice(rows).value, FillListener.PricedLots(rows)) == FillListener.Money(rows)
    ensures (!exists r :: r in rows && Priced(r)) ==>
              FillListener.AveragePrice(rows).None? || FillListener.AveragePrice(rows).value == 0.0
  {
    MoneySign(rows);
    var (lots, money) := (FillListener.PricedLots(rows), FillListener.Money(rows));
    hide FillListener.PricedLots, FillListener.Money;
    if lots > 0.0 {
      PerLot(money, lots);
      RatioNonNegative(money, lots);
    }
  }

  lemma {:induction false} MoneySign(rows: seq<FillListener.Row>)
    requires SaneFills(rows)
    ensures FillListener.Money(rows) >= 0.0 && FillListener.PricedLots(rows) >= 0.0
    ensures (exists r :: r in rows && Priced(r)) <==> FillListener.Money(rows) > 0.0
    ensures FillListener.Money(rows) > 0.0 ==> FillListener.PricedLots(rows) > 0.0
  {
    if rows != [] {
      var front, last := rows[..|rows| - 1], rows[|rows| - 1];
      MoneySign(front);
      assert rows == front + [last] && last in rows;
      if FillListener.Counts(last) {
        ProductPositive(last.price.value, last.lots);
      }
      assert (exists r :: r in rows && Priced(r)) <==> (exists r :: r in front && Priced(r)) || Priced(last);
    }
  }

  lemma ProductPositive(x: real, y: real)
    requires x >= 0.0 && y > 0.0
    ensures Mul(x, y) >= 0.0 && (Mul(x, y) > 0.0 <==> x > 0.0)
  {
  }

  /** So a price taken from fills lies among theirs. */
  lemma PriceLiesAmongFills(o: PlacedOrder, stamp: Stamp, low: real, high: real)
    requires CcfOrder(o) && SaneVenue(o) && Confirm(o, stamp).fills != []
    requires exists r :: r in Heard(o) && Priced(r)
    requires forall r :: r in Heard(o) && FillListener.Counts(r) ==> low <= r.price.value <= high
    ensures low <= Confirm(o, stamp).fills[0].price <= high
  {
    hide Confirm, FillListener.Money, FillListener.PricedLots, Heard, SaneVenue, Mul, Await,
         PricedByRow, RowTells;
    PriceIsEvidence(o, stamp);
    FillListener.MoneyWithin(Heard(o), low, high);
    var (price, lots) := (Confirm(o, stamp).fills[0].price, FillListener.PricedLots(Heard(o)));
    MulCancels(low, price, lots);
    MulCancels(price, high, lots);
  }

  /** Two different fills of one lot for an order of one: what it takes to report FILLED for more than the leg. */
  function OverfilledOrder(leg: ExecutionLeg, placed: OrderRow): PlacedOrder {
    var first := FillListener.Row(["A"], "1", 1.0, None, "", "");
    var second := first.(fillId := "2");
    PlacedOrder(leg, None, placed, true, [], {"A"}, [FillListener.Fill(first), FillListener.Fill(second)], (i: nat) =>
                  2,
                (i: nat) => None, None, None, 0.0, None, true, 1)
  }

  lemma OverfillBreaksContract(leg: ExecutionLeg, placed: OrderRow, stamp: Stamp, moved: real)
    requires leg.broker == FubonCcf && leg.quantity == 1.0 && leg.price > 0.0 && SaneRow(placed)
    ensures var o := OverfilledOrder(leg, placed);
            && CcfOrder(o) && SaneVenue(o) && LotsHeard(o) == 2.0 && Confirm(o, stamp).status == Filled
            && !Honest(Dispatch(leg, Entry, false, false, Confirm(o, stamp), moved))
  {
    var o := OverfilledOrder(leg, placed);
    TwoFills(o.late[0].row, o.late[1].row);
    assert HeardBy(o, Await(WatchOf(o), placed).glance) == o.late;
    hide Confirm, Await, Honest;
    assert FillsAt(o, Await(WatchOf(o), placed).glance) == [o.late[0].row, o.late[1].row];
    KeepsContractExactlyWhen(o, Entry, false, stamp, moved);
    FilledExactlyWhen(o, stamp);
  }

  lemma TwoFills(first: FillListener.Row, second: FillListener.Row)
    requires first.keys == second.keys == ["A"] && first.fillId == "1" && second.fillId == "2"
    requires first.lots == second.lots == 1.0
    ensures FillListener.DistinctLots({"A"}, [first, second]) == 2.0
    ensures FillListener.FillRows([FillListener.Fill(first), FillListener.Fill(second)]) == [first, second]
    ensures FillListener.Latest(FillListener.FillRows([]), FillListener.BUFFER_SIZE) == []
  {
    OneMore({"A"}, [], first, 0.0);
    OneMore({"A"}, [first], second, 1.0);
    hide FillListener.DistinctLots;
    assert [] + [first] == [first] && [first] + [second] == [first, second];
    var stream := [FillListener.Fill(first), FillListener.Fill(second)];
    assert stream[..1] == [stream[0]] && [stream[0]][..0] == [];
    assert FillListener.FillRows([stream[0]]) == [first];
  }

  /** A matching fill of a serial not yet seen adds its lots. */
  lemma OneMore(keys: set<string>, rows: seq<FillListener.Row>, row: FillListener.Row, lots: real)
    requires "A" in keys && row.keys == ["A"] && row.fillId != ""
             && forall r :: r in rows ==> r.fillId != "" && r.fillId != row.fillId
    requires FillListener.DistinctLots(keys, rows) == lots
    ensures FillListener.DistinctLots(keys, rows + [row]) == lots + row.lots
  {
    assert (rows + [row])[..|rows|] == rows;
    assert row.keys[0] == "A" && FillListener.Matches(keys, row);
  }
}
