/** The tables of the store and what each write does to them. */
module Store {
  import opened Models
  import opened StrategyModel
  import opened Strategy
  import opened StateJson

  /**
   One net correction per recovery and venue: the primary key is (recovery, broker), and (recovery, broker, symbol) is
   unique too.
   */
  datatype Adjustment = Adjustment(recovery: string, broker: BrokerName, symbol: string, quantity: real)

  /** A manual close waiting for its price; settled once its settlement is in. */
  datatype PendingClose = PendingClose(
    recovery: string,
    createdAt: int,
    settledAt: Option<int>,
    rowIndex: int,
    ccfSymbol: string,
    reason: string,
    original: RuntimeState
  ) {
    predicate Waiting() {
      settledAt.None?
    }
  }

  /** A booked round trip: one the strategy closed, or one closed by hand and settled later. */
  datatype TradeRow = Closed(trade: Trade) | Settled(recovery: string, open: OpenTrade, grossPnlTwd: real,
                                                     exitFeeTwd: real) {
    function Net(): real {
      match this
      case Closed(trade) => trade.netPnlTwd
      case Settled(_, open, gross, exitFee) => gross - (open.costs.totalFeeTwd + exitFee)
    }

    function Fees(): real {
      match this
      case Closed(trade) => trade.totalFeeTwd
      case Settled(_, open, _, exitFee) => open.costs.totalFeeTwd + exitFee
    }
  }

  datatype EventRow = EventRow(rowIndex: int, timestamp: int, eventType: string, message: string)

  datatype BarRow = BarRow(bar: MarketBar, snap: IndicatorSnapshot, state: RuntimeState,
                           unrealizedPnl: real, equity: real, runningMaxEquity: real, drawdownTwd: real,
                           drawdownPct: real)

  datatype Saved = Saved(rowIndex: int, timestamp: int, payload: Payload)

  datatype Tables = Tables(
    orders: seq<OrderResult>,
    fills: seq<Fill>,
    adjustments: seq<Adjustment>,
    pendings: seq<PendingClose>,
    trades: seq<TradeRow>,
    bars: map<int, BarRow>,
    events: seq<EventRow>,
    saved: Option<Saved>
  )

  const EMPTY := Tables([], [], [], [], [], map[], [], None)

  datatype Write<T> = Written(rows: seq<T>) | Collision

  /** Rows are keyed by id: an identical row is left alone, a different one under the same id is refused. */
  function WriteOrder(orders: seq<OrderResult>, order: OrderResult): Write<OrderResult> {
    if order in orders then Write.Written(orders)
    else if exists o :: o in orders && o.orderId == order.orderId then Collision
    else Write.Written(orders + [order])
  }

  function WriteFill(fills: seq<Fill>, fill: Fill): Write<Fill> {
    if fill in fills then Write.Written(fills)
    else if exists f :: f in fills && f.fillId == fill.fillId then Collision
    else Write.Written(fills + [fill])
  }

  predicate UniqueFills(fills: seq<Fill>) {
    forall i, j :: 0 <= i < j < |fills| ==> fills[i].fillId != fills[j].fillId
  }

  /** Replaces the row of the same index, and any other row of the same timestamp. */
  function WriteBar(bars: map<int, BarRow>, row: BarRow): map<int, BarRow> {
    (map k | k in bars && bars[k].bar.timestamp != row.bar.timestamp :: bars[k])[row.bar.rowIndex := row]
  }

  function AdjustmentTotal(rows: seq<Adjustment>, broker: BrokerName, symbol: string): real {
    if rows == [] then 0.0
    else (if rows[0].broker == broker && rows[0].symbol == symbol then rows[0].quantity else 0.0)
         + AdjustmentTotal(rows[1..], broker, symbol)
  }

  /** Net recorded exposure on one instrument: fills plus manual corrections. */
  function RecordedExposure(fills: seq<Fill>, adjustments: seq<Adjustment>, broker: BrokerName, symbol: string): real {
    SignedQuantity(fills, broker, symbol) + AdjustmentTotal(adjustments, broker, symbol)
  }

  predicate HasKey(rows: seq<Adjustment>, recovery: string, broker: BrokerName) {
    exists i :: 0 <= i < |rows| && rows[i].recovery == recovery && rows[i].broker == broker
  }

  predicate KeysUnique(rows: seq<Adjustment>) {
    forall i, j :: 0 <= i < j < |rows| ==> rows[i].recovery != rows[j].recovery || rows[i].broker != rows[j].broker
  }

  /** A plain insert: refused when the primary key is taken. */
  function InsertAdjustment(rows: seq<Adjustment>, row: Adjustment): Write<Adjustment> {
    if HasKey(rows, row.recovery, row.broker) then Collision else Write.Written(rows + [row])
  }

  /**
   The upsert: adds to the row of the same recovery, venue and symbol; a row of another symbol still holds the key and
   refuses it.
   */
  function UpsertAdjustment(rows: seq<Adjustment>, row: Adjustment): Write<Adjustment> {
    if rows == [] then Write.Written([row])
    else if rows[0].recovery == row.recovery && rows[0].broker == row.broker then
      if rows[0].symbol == row.symbol
      then Write.Written([rows[0].(quantity := rows[0].quantity + row.quantity)] + rows[1..])
      else Collision
    else
      match UpsertAdjustment(rows[1..], row)
      case Collision => Collision
      case Written(rest) => Write.Written([rows[0]] + rest)
  }

  /** The waiting close recorded last. */
  function LatestWaiting(pendings: seq<PendingClose>): (r: Option<PendingClose>)
    ensures r.Some? ==> r.value in pendings && r.value.Waiting()
    ensures r.None? <==> forall p :: p in pendings ==> !p.Waiting()
    ensures r.Some? ==> forall p :: p in pendings && p.Waiting() ==> p.createdAt <= r.value.createdAt
  {
    if pendings == [] then None
    else
      var rest := LatestWaiting(pendings[1..]);
      if pendings[0].Waiting() && (rest.None? || rest.value.createdAt <= pendings[0].createdAt) then Some(pendings[0])
      else rest
  }

  /** Marks the waiting close of a recovery as settled, if there is one. */
  function SettlePending(pendings: seq<PendingClose>, recovery: string, settledAt: int): seq<PendingClose> {
    if pendings == [] then []
    else
      [if pendings[0].recovery == recovery && pendings[0].Waiting() then pendings[0].(settledAt := Some(settledAt))
       else pendings[0]]
      + SettlePending(pendings[1..], recovery, settledAt)
  }

  function WaitingCount(pendings: seq<PendingClose>, recovery: string): nat {
    if pendings == [] then 0
    else (if pendings[0].recovery == recovery && pendings[0].Waiting() then 1 else 0)
         + WaitingCount(pendings[1..], recovery)
  }

  class SQLiteStore {
    const codec: Codec
    var orders: seq<OrderResult>
    var fills: seq<Fill>
    var adjustments: seq<Adjustment>
    var pendings: seq<PendingClose>
    var trades: seq<TradeRow>
    var bars: map<int, BarRow>
    var events: seq<EventRow>
    var saved: Option<Saved>

    constructor (codec: Codec)
      ensures this.codec == codec && Contents() == EMPTY
    {
      this.codec := codec;
      orders, fills, adjustments, pendings, trades, bars, events, saved := [], [], [], [], [], map[], [], None;
    }

    function Contents(): Tables
      reads this
    {
      Tables(orders, fills, adjustments, pendings, trades, bars, events, saved)
    }

    method Reset()
      modifies this
      ensures Contents() == EMPTY
    {
      orders, fills, adjustments, pendings, trades, bars, events, saved := [], [], [], [], [], map[], [], None;
    }

    /** Back to the tables of the last commit. */
    method Rollback(to: Tables)
      modifies this
      ensures Contents() == to
    {
      orders, fills, adjustments, pendings, trades, bars, events, saved :=
        to.orders, to.fills, to.adjustments, to.pendings, to.trades, to.bars, to.events, to.saved;
    }

    method RecordOrder(order: OrderResult) returns (ok: bool)
      modifies this`orders
      ensures ok == WriteOrder(old(orders), order).Written?
      ensures orders == if ok then WriteOrder(old(orders), order).rows else old(orders)
    {
      if order in orders {
        return true;
      }
      if exists o :: o in orders && o.orderId == order.orderId {
        return false;
      }
      orders := orders + [order];
      ok := true;
    }

    method RecordFill(fill: Fill) returns (ok: bool)
      modifies this`fills
      ensures ok == WriteFill(old(fills), fill).Written?
      ensures fills == if ok then WriteFill(old(fills), fill).rows else old(fills)
    {
      if fill in fills {
        return true;
      }
      if exists f :: f in fills && f.fillId == fill.fillId {
        return false;
      }
      fills := fills + [fill];
      ok := true;
    }

    method RecordTrade(row: TradeRow)
      modifies this`trades
      ensures trades == old(trades) + [row]
    {
      trades := trades + [row];
    }

    method RecordEvent(row: EventRow)
      modifies this`events
      ensures events == old(events) + [row]
    {
      events := events + [row];
    }

    method RecordBar(row: BarRow)
      modifies this`bars
      ensures bars == WriteBar(old(bars), row)
    {
      bars := WriteBar(bars, row);
    }

    method SaveState(rowIndex: int, timestamp: int, state: RuntimeState)
      modifies this`saved
      ensures saved == Some(Saved(rowIndex, timestamp, ToJson(codec, state)))
    {
      saved := Some(Saved(rowIndex, timestamp, ToJson(codec, state)));
    }

    /** Sums fills and corrections in one pass over each table. */
    method LoadRecordedFillExposure(umcSymbol: string, ccfSymbol: string) returns (umc: real, ccf: real)
      ensures umc == RecordedExposure(fills, adjustments, IbkrUmc, umcSymbol)
      ensures ccf == RecordedExposure(fills, adjustments, FubonCcf, ccfSymbol)
    {
      umc, ccf := 0.0, 0.0;
      for i := |fills| downto 0
        invariant umc == SignedQuantity(fills[i..], IbkrUmc, umcSymbol)
        invariant ccf == SignedQuantity(fills[i..], FubonCcf, ccfSymbol)
      {
        assert fills[i..][1..] == fills[i + 1..];
        if fills[i].On(IbkrUmc, umcSymbol) {
          umc := umc + fills[i].Signed();
        } else if fills[i].On(FubonCcf, ccfSymbol) {
          ccf := ccf + fills[i].Signed();
        }
      }
      assert fills[0..] == fills;
      ghost var (umcFills, ccfFills) := (umc, ccf);
      for i := |adjustments| downto 0
        invariant umc == umcFills + AdjustmentTotal(adjustments[i..], IbkrUmc, umcSymbol)
        invariant ccf == ccfFills + AdjustmentTotal(adjustments[i..], FubonCcf, ccfSymbol)
      {
        assert adjustments[i..][1..] == adjustments[i + 1..];
        if adjustments[i].broker == IbkrUmc && adjustments[i].symbol == umcSymbol {
          umc := umc + adjustments[i].quantity;
        } else if adjustments[i].broker == FubonCcf && adjustments[i].symbol == ccfSymbol {
          ccf := ccf + adjustments[i].quantity;
        }
      }
      assert adjustments[0..] == adjustments;
    }

    /** The waiting close recorded last, found in one pass from the end. */
    method LoadPendingManualClose() returns (latest: Option<PendingClose>)
      ensures latest == LatestWaiting(pendings)
    {
      latest := None;
      for i := |pendings| downto 0
        invariant latest == LatestWaiting(pendings[i..])
      {
        assert pendings[i..][1..] == pendings[i + 1..];
        var p := pendings[i];
        if p.Waiting() && (latest.None? || latest.value.createdAt <= p.createdAt) {
          latest := Some(p);
        }
      }
      assert pendings[0..] == pendings;
    }

    method InsertAdjustmentRow(row: Adjustment) returns (ok: bool)
      modifies this`adjustments
      ensures ok == InsertAdjustment(old(adjustments), row).Written?
      ensures adjustments == if ok then InsertAdjustment(old(adjustments), row).rows else old(adjustments)
    {
      ok := !exists i ::
        0 <= i < |adjustments| && adjustments[i].recovery == row.recovery
        && adjustments[i].broker == row.broker;
      if ok {
        adjustments := adjustments + [row];
      }
    }

    /** Finds the row's key and accumulates into it, or appends. */
    method UpsertAdjustmentRow(row: Adjustment) returns (ok: bool)
      modifies this`adjustments
      ensures ok == UpsertAdjustment(old(adjustments), row).Written?
      ensures adjustments == if ok then UpsertAdjustment(old(adjustments), row).rows else old(adjustments)
    {
      var i := 0;
      while i < |adjustments| && !(adjustments[i].recovery == row.recovery && adjustments[i].broker == row.broker)
        invariant 0 <= i <= |adjustments| && NotKeyed(adjustments, row, i)
      {
        i := i + 1;
      }
      UpsertFoundAt(adjustments, row, i);
      if i == |adjustments| {
        adjustments := adjustments + [row];
        ok := true;
      } else if adjustments[i].symbol == row.symbol {
        adjustments := adjustments[i := adjustments[i].(quantity := adjustments[i].quantity + row.quantity)];
        ok := true;
      } else {
        ok := false;
      }
    }

    /**
     Opens a pending close with its two corrections; false when a key is taken, with the transaction left to roll back.
     */
    method RecordManualFlatRecovery(p: PendingClose, umc: Adjustment, ccf: Adjustment) returns (ok: bool)
      modifies this`pendings, this`adjustments
      ensures var first := InsertAdjustment(old(adjustments), umc);
              && ok == (!(exists q :: q in old(pendings) && q.recovery == p.recovery)
                        && first.Written? && InsertAdjustment(first.rows, ccf).Written?)
              && (ok ==> pendings == old(pendings) + [p] && adjustments == InsertAdjustment(first.rows, ccf).rows)
    {
      if exists q :: q in pendings && q.recovery == p.recovery {
        return false;
      }
      pendings := pendings + [p];
      ok := InsertAdjustmentRow(umc);
      if ok {
        ok := InsertAdjustmentRow(ccf);
      }
    }

    /** Accumulates the corrections worth making. */
    method RecordManualFlatLedgerRepair(rows: seq<Adjustment>, dust: real) returns (ok: bool)
      modifies this`adjustments
      ensures ok == RepairRows(old(adjustments), rows, dust).Written?
      ensures ok ==> adjustments == RepairRows(old(adjustments), rows, dust).rows
    {
      ok := true;
      for i := 0 to |rows|
        invariant RepairRows(old(adjustments), rows[..i], dust) == Write.Written(adjustments)
      {
        assert rows[..i + 1][..i] == rows[..i];
        if Abs(rows[i].quantity) > dust {
          var written := UpsertAdjustmentRow(rows[i]);
          if !written {
            RepairStaysRefused(old(adjustments), rows, dust, i + 1);
            return false;
          }
        }
      }
      assert rows[..|rows|] == rows;
    }

    /** Settles the waiting rows of a recovery; only one row may match, or the caller rolls back. */
    method RecordManualCloseSettlement(recovery: string, settledAt: int) returns (ok: bool)
      modifies this`pendings
      ensures ok == (WaitingCount(old(pendings), recovery) == 1)
      ensures pendings == SettlePending(old(pendings), recovery, settledAt)
    {
      var matched, updated := 0, [];
      for i := |pendings| downto 0
        invariant matched == WaitingCount(pendings[i..], recovery)
                  && updated == SettlePending(pendings[i..], recovery, settledAt)
        invariant pendings == old(pendings)
      {
        assert pendings[i..][1..] == pendings[i + 1..];
        if pendings[i].recovery == recovery && pendings[i].Waiting() {
          matched, updated := matched + 1, [pendings[i].(settledAt := Some(settledAt))] + updated;
        } else {
          updated := [pendings[i]] + updated;
        }
      }
      assert pendings[0..] == pendings;
      pendings := updated;
      ok := matched == 1;
    }
  }

  /** None of the first n rows carries this row's key. */
  predicate NotKeyed(rows: seq<Adjustment>, row: Adjustment, n: nat)
    requires n <= |rows|
  {
    forall k :: 0 <= k < n ==> !(rows[k].recovery == row.recovery && rows[k].broker == row.broker)
  }

  /** The upsert acts at the first row of its key, or at the end. */
  lemma {:induction false} UpsertFoundAt(rows: seq<Adjustment>, row: Adjustment, i: nat)
    requires i <= |rows| && NotKeyed(rows, row, i)
    requires i < |rows| ==> rows[i].recovery == row.recovery && rows[i].broker == row.broker
    ensures UpsertAdjustment(rows, row)
            == (if i == |rows| then Write.Written(rows + [row])
                else if rows[i].symbol == row.symbol
                then Write.Written(rows[i := rows[i].(quantity := rows[i].quantity + row.quantity)])
                else Collision)
  {
    if i > 0 {
      assert forall k :: 0 <= k < i - 1 ==> rows[1..][k] == rows[k + 1];
      UpsertFoundAt(rows[1..], row, i - 1);
      assert [rows[0]] + (rows[1..] + [row]) == rows + [row];
      if i < |rows| {
        var merged := rows[i].(quantity := rows[i].quantity + row.quantity);
        assert [rows[0]] + rows[1..][i - 1 := merged] == rows[i := merged];
      }
    } else if i < |rows| {
      assert [rows[0].(quantity := rows[0].quantity + row.quantity)] + rows[1..]
        == rows[0 := rows[0].(quantity := rows[0].quantity + row.quantity)];
    }
  }

  /** Adds a correction unless it is dust. */
  function RepairRow(rows: seq<Adjustment>, row: Adjustment, dust: real): Write<Adjustment> {
    if Abs(row.quantity) <= dust then Write.Written(rows) else UpsertAdjustment(rows, row)
  }

  /** Corrections in order. */
  function RepairRows(table: seq<Adjustment>, rows: seq<Adjustment>, dust: real): Write<Adjustment> {
    if rows == [] then Write.Written(table)
    else
      var last := rows[|rows| - 1];
      match RepairRows(table, rows[..|rows| - 1], dust)
      case Collision => Collision
      case Written(earlier) => RepairRow(earlier, last, dust)
  }

  lemma {:induction false} RepairStaysRefused(table: seq<Adjustment>, rows: seq<Adjustment>, dust: real, n: nat)
    requires n <= |rows| && RepairRows(table, rows[..n], dust).Collision?
    ensures RepairRows(table, rows, dust).Collision?
    decreases |rows|
  {
    if n < |rows| {
      assert rows[..|rows| - 1][..n] == rows[..n];
      RepairStaysRefused(table, rows[..|rows| - 1], dust, n);
    } else {
      assert rows[..n] == rows;
    }
  }

  // ---------------------------------------------------------------- what the writes keep

  /** Ids stay unique, and recording the same fill again leaves every exposure where it was. */
  lemma RerecordingIsHarmless(fills: seq<Fill>, fill: Fill, broker: BrokerName, symbol: string)
    requires UniqueFills(fills) && WriteFill(fills, fill).Written?
    ensures var once := WriteFill(fills, fill).rows;
            && UniqueFills(once)
            && WriteFill(once, fill) == Write.Written(once)
            && SignedQuantity(once, broker, symbol)
               == SignedQuantity(fills, broker, symbol)
                  + (if fill !in fills && fill.On(broker, symbol) then fill.Signed() else 0.0)
  {
    if fill !in fills {
      SignedQuantityConcat(fills, [fill], broker, symbol);
      assert [fill][1..] == [];
      assert forall f :: f in fills ==> f.fillId != fill.fillId;
    }
  }

  lemma {:induction false} AdjustmentTotalConcat(a: seq<Adjustment>, b: seq<Adjustment>, broker: BrokerName,
                                                 symbol: string)
    ensures AdjustmentTotal(a + b, broker, symbol)
            == AdjustmentTotal(a, broker, symbol) + AdjustmentTotal(b, broker, symbol)
  {
    if a == [] {
      assert a + b == b;
    } else {
      assert (a + b)[1..] == a[1..] + b;
      AdjustmentTotalConcat(a[1..], b, broker, symbol);
    }
  }

  function FirstKeyed(rows: seq<Adjustment>, row: Adjustment): (i: nat)
    ensures i <= |rows| && NotKeyed(rows, row, i)
    ensures i < |rows| ==> rows[i].recovery == row.recovery && rows[i].broker == row.broker
  {
    if rows == [] || (rows[0].recovery == row.recovery && rows[0].broker == row.broker) then 0
    else
      assert forall k :: 1 <= k < |rows| ==> rows[1..][k - 1] == rows[k];
      1 + FirstKeyed(rows[1..], row)
  }

  lemma AdjustmentReplaced(rows: seq<Adjustment>, i: nat, merged: Adjustment, broker: BrokerName, symbol: string)
    requires i < |rows| && merged.broker == rows[i].broker && merged.symbol == rows[i].symbol
    ensures AdjustmentTotal(rows[i := merged], broker, symbol)
         == AdjustmentTotal(rows, broker, symbol)
            + (if merged.broker == broker && merged.symbol == symbol then merged.quantity - rows[i].quantity else 0.0)
  {
    var front, back := rows[..i], rows[i + 1..];
    assert rows == front + ([rows[i]] + back) && rows[i := merged] == front + ([merged] + back);
    assert ([rows[i]] + back)[1..] == back && ([merged] + back)[1..] == back;
    AdjustmentTotalConcat(front, [rows[i]] + back, broker, symbol);
    AdjustmentTotalConcat(front, [merged] + back, broker, symbol);
  }

  /**
   A correction that goes in moves its own instrument by exactly its quantity and no other, and keeps the keys unique.
   It is refused exactly when the recovery already corrected that venue under another symbol.
   */
  lemma UpsertAccumulates(rows: seq<Adjustment>, row: Adjustment, broker: BrokerName, symbol: string)
    requires KeysUnique(rows)
    ensures UpsertAdjustment(rows, row).Collision?
            <==> exists i ::
              0 <= i < |rows| && rows[i].recovery == row.recovery && rows[i].broker == row.broker
              && rows[i].symbol != row.symbol
    ensures UpsertAdjustment(rows, row).Written? ==>
              var after := UpsertAdjustment(rows, row).rows;
              && KeysUnique(after)
              && AdjustmentTotal(after, broker, symbol)
                 == AdjustmentTotal(rows, broker, symbol)
                    + (if row.broker == broker && row.symbol == symbol then row.quantity else 0.0)
  {
    hide AdjustmentTotal, UpsertAdjustment;
    var i := FirstKeyed(rows, row);
    UpsertFoundAt(rows, row, i);
    if i == |rows| {
      AdjustmentTotalConcat(rows, [row], broker, symbol);
      OneAdjustment(row, broker, symbol);
    } else if rows[i].symbol == row.symbol {
      AdjustmentReplaced(rows, i, rows[i].(quantity := rows[i].quantity + row.quantity), broker, symbol);
    }
  }

  lemma OneAdjustment(row: Adjustment, broker: BrokerName, symbol: string)
    ensures AdjustmentTotal([row], broker, symbol) == if row.broker == broker && row.symbol == symbol then row.quantity
              else 0.0
  {
    assert [row][1..] == [];
  }
}
