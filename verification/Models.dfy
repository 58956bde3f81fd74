/** Values shared by the strategy, the execution path and the store. */
module Models {

  datatype Option<+T> = None | Some(value: T)

  datatype Direction = ShortUmcLongCcf | LongUmcShortCcf

  datatype StrategyState = Flat | EntryPending | Open | ExitPending | Paused | Error | ForcedClosed

  datatype OrderSide = Buy | Sell {
    function Sign(): real {
      if Buy? then 1.0 else -1.0
    }

    function Reverse(): OrderSide {
      if Buy? then Sell else Buy
    }
  }

  datatype BrokerName = FubonCcf | IbkrUmc

  /** Paper ids render a row index and a per-process counter; venue ids are opaque text. */
  datatype RecordId = Paper(row: int, serial: nat) | Venue(text: string)

  datatype OrderRequest = OrderRequest(
    broker: BrokerName,
    symbol: string,
    side: OrderSide,
    quantity: real,
    price: real,
    timestamp: int,
    rowIndex: int,
    feeTwd: real
  )

  datatype OrderResult = OrderResult(orderId: RecordId, request: OrderRequest)

  datatype Fill = Fill(
    fillId: RecordId,
    orderId: RecordId,
    broker: BrokerName,
    symbol: string,
    side: OrderSide,
    quantity: real,
    price: real,
    feeTwd: real,
    timestamp: int,
    rowIndex: int
  ) {
    predicate On(broker: BrokerName, symbol: string) {
      this.broker == broker && this.symbol == symbol
    }

    function Signed(): real {
      side.Sign() * quantity
    }
  }

  function Abs(x: real): real {
    if x < 0.0 then -x else x
  }

  function Max(a: real, b: real): real {
    if a < b then b else a
  }

  function Min(a: real, b: real): real {
    if b < a then b else a
  }

  function AbsInt(x: int): nat {
    if x < 0 then -x else x
  }

  /** A product under a name: proofs hide it where the solver should treat products as atoms. */
  function Mul(x: real, y: real): real { x * y }

  lemma MulPositive(x: real, y: real)
    requires x > 0.0 && y > 0.0
    ensures Mul(x, y) > 0.0
  {
  }

  lemma MulMonotone(a: real, b: real, weight: real)
    requires a <= b && weight >= 0.0
    ensures Mul(a, weight) <= Mul(b, weight)
  {
  }

  lemma MulAdds(a: real, v: real, w: real)
    ensures Mul(a, v + w) == Mul(a, v) + Mul(a, w)
  {
  }

  lemma MulOfRatio(x: real, y: real)
    requires y != 0.0
    ensures Mul(x / y, y) == x
  {
  }

  lemma MulCancels(a: real, b: real, v: real)
    requires v > 0.0 && Mul(a, v) <= Mul(b, v)
    ensures a <= b
  {
    hide Mul;
    if a > b {
      MulPositive(a - b, v);
      MulSubtracts(a, b, v);
    }
  }

  lemma MulSubtracts(a: real, b: real, v: real)
    ensures Mul(a - b, v) == Mul(a, v) - Mul(b, v)
  {
  }

  /** Unsigned lots or units filled on one instrument, whatever the side. */
  function FilledQuantity(fills: seq<Fill>, broker: BrokerName, symbol: string): real {
    if fills == [] then 0.0
    else (if fills[0].On(broker, symbol) then fills[0].quantity else 0.0) + FilledQuantity(fills[1..], broker, symbol)
  }

  /** Net exposure the fills add on one instrument: buys count up, sells count down. */
  function SignedQuantity(fills: seq<Fill>, broker: BrokerName, symbol: string): real {
    if fills == [] then 0.0
    else (if fills[0].On(broker, symbol) then fills[0].Signed() else 0.0) + SignedQuantity(fills[1..], broker, symbol)
  }

  lemma {:induction false} SignedQuantityConcat(a: seq<Fill>, b: seq<Fill>, broker: BrokerName, symbol: string)
    ensures SignedQuantity(a + b, broker, symbol)
            == SignedQuantity(a, broker, symbol) + SignedQuantity(b, broker, symbol)
  {
    if a == [] {
      assert a + b == b;
    } else {
      assert (a + b)[1..] == a[1..] + b;
      SignedQuantityConcat(a[1..], b, broker, symbol);
    }
  }

  /** Fills that all take one side have a net exposure of exactly that sign. */
  lemma {:induction false} OneSidedFills(fills: seq<Fill>, broker: BrokerName, symbol: string, side: OrderSide)
    requires forall f :: f in fills ==> f.side == side
    ensures SignedQuantity(fills, broker, symbol) == side.Sign() * FilledQuantity(fills, broker, symbol)
  {
    if fills != [] {
      OneSidedFills(fills[1..], broker, symbol, side);
    }
  }

  lemma {:induction false} ForeignFills(fills: seq<Fill>, broker: BrokerName, symbol: string)
    requires forall f :: f in fills ==> !f.On(broker, symbol)
    ensures SignedQuantity(fills, broker, symbol) == 0.0
  {
    if fills != [] {
      ForeignFills(fills[1..], broker, symbol);
    }
  }

  lemma {:induction false} FilledQuantityNonNegative(fills: seq<Fill>, broker: BrokerName, symbol: string)
    requires forall f :: f in fills ==> f.quantity >= 0.0
    ensures FilledQuantity(fills, broker, symbol) >= 0.0
  {
    if fills != [] {
      FilledQuantityNonNegative(fills[1..], broker, symbol);
    }
  }
}
