/**
 Fill confirmation by callback: reports that arrive before an order knows its keys wait in a bounded buffer,
 and a report delivered twice counts once.
 */
module FillListener {
  import opened Models

  /**
   A callback row: the order keys it carries, its fill serial and status ("" when absent), and everything else as text.
   */
  datatype Row = Row(keys: seq<string>, fillId: string, lots: real, price: Option<real>, status: string, rest: string)

  /** Rows are told apart by fill serial, or by their whole content when they carry none. */
  datatype DedupeKey = BySerial(serial: string) | ByContent(row: Row)

  function KeyOf(row: Row): DedupeKey {
    if row.fillId != "" then BySerial(row.fillId) else ByContent(row)
  }

  const BUFFER_SIZE := 64

  datatype WaiterState = WaiterState(
    keys: set<string>,
    filledLots: real,
    fillEvents: seq<Row>,
    orderReports: seq<Row>,
    terminalStatus: Option<string>,
    seen: set<DedupeKey>
  )

  const NEW_WAITER := WaiterState({}, 0.0, [], [], None, {})

  predicate Matches(keys: set<string>, row: Row) {
    exists k :: k in row.keys && k in keys
  }

  function AbsorbFill(w: WaiterState, row: Row): WaiterState {
    if KeyOf(row) in w.seen then w
    else w.(seen := w.seen + {KeyOf(row)}, filledLots := w.filledLots + row.lots, fillEvents := w.fillEvents + [row])
  }

  function AbsorbReport(w: WaiterState, row: Row): WaiterState {
    w.(orderReports := w.orderReports + [row], terminalStatus := if row.status != "" then Some(row.status)
       else w.terminalStatus)
  }

  function OnFill(w: WaiterState, row: Row): WaiterState {
    if Matches(w.keys, row) then AbsorbFill(w, row) else w
  }

  function OnReport(w: WaiterState, row: Row): WaiterState {
    if Matches(w.keys, row) then AbsorbReport(w, row) else w
  }

  /** The last n rows. */
  function Latest(rows: seq<Row>, n: nat): (r: seq<Row>)
    ensures |r| <= n
  {
    if |rows| <= n then rows else rows[|rows| - n..]
  }

  function Buffered(buffer: seq<Row>, row: Row): seq<Row> {
    Latest(buffer + [row], BUFFER_SIZE)
  }

  function OnFills(w: WaiterState, rows: seq<Row>): WaiterState {
    if rows == [] then w else OnFill(OnFills(w, rows[..|rows| - 1]), rows[|rows| - 1])
  }

  function OnReports(w: WaiterState, rows: seq<Row>): WaiterState {
    if rows == [] then w else OnReport(OnReports(w, rows[..|rows| - 1]), rows[|rows| - 1])
  }

  /** The rows a set of keys leaves behind. */
  function Unclaimed(keys: set<string>, rows: seq<Row>): seq<Row> {
    if rows == [] then []
    else Unclaimed(keys, rows[..|rows| - 1]) + (if Matches(keys, rows[|rows| - 1]) then [] else [rows[|rows| - 1]])
  }

  /** Learning keys replays the buffers through the waiter. */
  function Reclaimed(w: WaiterState, keys: set<string>, fills: seq<Row>, reports: seq<Row>): WaiterState {
    OnReports(OnFills(w.(keys := w.keys + keys), fills), reports)
  }

  class FillWaiter {
    var keys: set<string>
    var filledLots: real
    var fillEvents: seq<Row>
    var orderReports: seq<Row>
    var terminalStatus: Option<string>
    var seen: set<DedupeKey>

    constructor ()
      ensures State() == NEW_WAITER
    {
      keys, filledLots, fillEvents, orderReports, terminalStatus, seen := {}, 0.0, [], [], None, {};
    }

    function State(): WaiterState
      reads this
    {
      WaiterState(keys, filledLots, fillEvents, orderReports, terminalStatus, seen)
    }

    method AbsorbFillLocked(row: Row)
      modifies this
      ensures State() == AbsorbFill(old(State()), row)
    {
      var key := KeyOf(row);
      if key in seen {
        return;
      }
      seen := seen + {key};
      filledLots := filledLots + row.lots;
      fillEvents := fillEvents + [row];
    }

    method ApplyOrderReportLocked(row: Row)
      modifies this
      ensures State() == AbsorbReport(old(State()), row)
    {
      orderReports := orderReports + [row];
      if row.status != "" {
        terminalStatus := Some(row.status);
      }
    }

    /** The lot-weighted price of the fills that carry one. */
    method AverageFillPrice() returns (average: Option<real>)
      ensures average == AveragePrice(fillEvents)
    {
      hide Mul;
      var lots, money := 0.0, 0.0;
      for i := 0 to |fillEvents|
        invariant lots == PricedLots(fillEvents[..i]) && money == Money(fillEvents[..i])
      {
        assert fillEvents[..i + 1][..i] == fillEvents[..i];
        var event := fillEvents[i];
        if event.lots > 0.0 && event.price.Some? {
          lots := lots + event.lots;
          money := money + Mul(event.price.value, event.lots);
        }
      }
      assert fillEvents[..|fillEvents|] == fillEvents;
      average := if lots <= 0.0 then None else Some(money / lots);
    }
  }

  class FubonFillReportListener {
    var waiters: seq<FillWaiter>
    var unmatchedFills: seq<Row>
    var unmatchedReports: seq<Row>

    predicate Valid()
      reads this
    {
      && (forall i, j :: 0 <= i < j < |waiters| ==> waiters[i] != waiters[j])
      && |unmatchedFills| <= BUFFER_SIZE && |unmatchedReports| <= BUFFER_SIZE
    }

    constructor ()
      ensures Valid() && waiters == [] && unmatchedFills == [] && unmatchedReports == []
    {
      waiters, unmatchedFills, unmatchedReports := [], [], [];
    }

    method RegisterWaiter() returns (waiter: FillWaiter)
      requires Valid()
      modifies this`waiters
      ensures Valid() && fresh(waiter) && waiters == old(waiters) + [waiter] && waiter.State() == NEW_WAITER
    {
      waiter := new FillWaiter();
      waiters := waiters + [waiter];
    }

    /** Every waiter that knows the order takes the fill; a fill nobody knows is buffered. */
    method OnFilled(row: Row)
      requires Valid()
      modifies this`unmatchedFills, waiters
      ensures Valid()
      ensures forall i :: 0 <= i < |waiters| ==> waiters[i].State() == OnFill(old(waiters[i].State()), row)
      ensures unmatchedFills == if exists w :: w in waiters && Matches(old(w.keys), row) then old(unmatchedFills)
                                else Buffered(old(unmatchedFills), row)
    {
      var matched := false;
      for i := 0 to |waiters|
        invariant forall k :: 0 <= k < i ==> waiters[k].State() == OnFill(old(waiters[k].State()), row)
        invariant unmatchedFills == old(unmatchedFills)
        invariant forall k :: i <= k < |waiters| ==> waiters[k].State() == old(waiters[k].State())
        invariant matched <==> exists k :: 0 <= k < i && Matches(old(waiters[k].keys), row)
      {
        if Matches(waiters[i].keys, row) {
          waiters[i].AbsorbFillLocked(row);
          matched := true;
        }
      }
      if !matched {
        unmatchedFills := Buffered(unmatchedFills, row);
      }
    }

    method AbsorbOrderReport(row: Row)
      requires Valid()
      modifies this`unmatchedReports, waiters
      ensures Valid()
      ensures forall i :: 0 <= i < |waiters| ==> waiters[i].State() == OnReport(old(waiters[i].State()), row)
      ensures unmatchedReports == if exists w :: w in waiters && Matches(old(w.keys), row) then old(unmatchedReports)
                                  else Buffered(old(unmatchedReports), row)
    {
      var matched := false;
      for i := 0 to |waiters|
        invariant forall k :: 0 <= k < i ==> waiters[k].State() == OnReport(old(waiters[k].State()), row)
        invariant unmatchedReports == old(unmatchedReports)
        invariant forall k :: i <= k < |waiters| ==> waiters[k].State() == old(waiters[k].State())
        invariant matched <==> exists k :: 0 <= k < i && Matches(old(waiters[k].keys), row)
      {
        if Matches(waiters[i].keys, row) {
          waiters[i].ApplyOrderReportLocked(row);
          matched := true;
        }
      }
      if !matched {
        unmatchedReports := Buffered(unmatchedReports, row);
      }
    }

    /** The waiter learns its keys and takes back what arrived before it knew them. */
    method SetKeys(waiter: FillWaiter, keys: set<string>)
      requires Valid() && waiter in waiters
      modifies this`unmatchedFills, this`unmatchedReports, waiter
      ensures Valid()
      ensures waiter.keys == old(waiter.keys) + keys
      ensures waiter.State() == Reclaimed(old(waiter.State()), keys, old(unmatchedFills), old(unmatchedReports))
      ensures unmatchedFills == Unclaimed(waiter.keys, old(unmatchedFills))
      ensures unmatchedReports == Unclaimed(waiter.keys, old(unmatchedReports))
    {
      waiter.keys := waiter.keys + keys;
      ghost var start := waiter.State();
      var fills, reports := unmatchedFills, unmatchedReports;
      var remaining: seq<Row> := [];
      for i := 0 to |fills|
        invariant waiter.State() == OnFills(start, fills[..i]) && waiter.keys == start.keys
        invariant remaining == Unclaimed(start.keys, fills[..i]) && |remaining| <= i
      {
        assert fills[..i + 1][..i] == fills[..i];
        if Matches(waiter.keys, fills[i]) {
          waiter.AbsorbFillLocked(fills[i]);
        } else {
          remaining := remaining + [fills[i]];
        }
      }
      assert fills[..|fills|] == fills;
      unmatchedFills := remaining;
      ghost var filled := waiter.State();
      var kept: seq<Row> := [];
      for i := 0 to |reports|
        invariant waiter.State() == OnReports(filled, reports[..i]) && waiter.keys == start.keys
        invariant kept == Unclaimed(start.keys, reports[..i]) && |kept| <= i
        invariant unmatchedFills == remaining
      {
        assert reports[..i + 1][..i] == reports[..i];
        if Matches(waiter.keys, reports[i]) {
          waiter.ApplyOrderReportLocked(reports[i]);
        } else {
          kept := kept + [reports[i]];
        }
      }
      assert reports[..|reports|] == reports;
      unmatchedReports := kept;
    }
  }

  // ---------------------------------------------------------------- one waiter, any interleaving

  /** A callback stream around one order: fill and order reports, and the moment the order learns its keys. */
  datatype Callback = Fill(row: Row) | Report(row: Row)

  datatype Session = Session(waiter: WaiterState, fills: seq<Row>, reports: seq<Row>)

  const START := Session(NEW_WAITER, [], [])

  function Deliver(s: Session, c: Callback): Session {
    match c
    case Fill(row) => if Matches(s.waiter.keys, row) then s.(waiter := AbsorbFill(s.waiter, row))
      else s.(fills := Buffered(s.fills, row))
    case Report(row) => if Matches(s.waiter.keys, row) then s.(waiter := AbsorbReport(s.waiter, row))
      else s.(reports := Buffered(s.reports, row))
  }

  function DeliverAll(s: Session, stream: seq<Callback>): Session {
    if stream == [] then s else Deliver(DeliverAll(s, stream[..|stream| - 1]), stream[|stream| - 1])
  }

  function Learn(s: Session, keys: set<string>): Session {
    Session(Reclaimed(s.waiter, keys, s.fills, s.reports), Unclaimed(s.waiter.keys + keys, s.fills),
            Unclaimed(s.waiter.keys + keys, s.reports))
  }

  /** The order learns its keys after `before` and ahead of `after`. */
  function Run(before: seq<Callback>, keys: set<string>, after: seq<Callback>): Session {
    DeliverAll(Learn(DeliverAll(START, before), keys), after)
  }

  /** A listener with one registered waiter, read as a session. */
  function SessionOf(listener: FubonFillReportListener, waiter: FillWaiter): Session
    reads listener, waiter
  {
    Session(waiter.State(), listener.unmatchedFills, listener.unmatchedReports)
  }

  /** Every callback takes such a listener one delivery on. */
  method Hear(listener: FubonFillReportListener, waiter: FillWaiter, stream: seq<Callback>)
    requires listener.Valid() && listener.waiters == [waiter]
    modifies listener, waiter
    ensures listener.Valid() && listener.waiters == [waiter]
    ensures SessionOf(listener, waiter) == DeliverAll(old(SessionOf(listener, waiter)), stream)
  {
    hide AbsorbFill, AbsorbReport, Buffered;
    ghost var start := SessionOf(listener, waiter);
    for i := 0 to |stream|
      invariant listener.Valid() && listener.waiters == [waiter]
      invariant SessionOf(listener, waiter) == DeliverAll(start, stream[..i])
    {
      assert stream[..i + 1][..i] == stream[..i];
      assert waiter == listener.waiters[0];
      match stream[i] {
        case Fill(row) => listener.OnFilled(row);
        case Report(row) => listener.AbsorbOrderReport(row);
      }
    }
    assert stream[..|stream|] == stream;
  }

  /** An order's life at the listener: register, hear callbacks, learn the keys, hear the rest. */
  method FollowOrder(before: seq<Callback>, keys: set<string>, after: seq<Callback>)
    returns (listener: FubonFillReportListener, waiter: FillWaiter)
    ensures listener.Valid() && SessionOf(listener, waiter) == Run(before, keys, after)
  {
    hide Reclaimed, Unclaimed;
    listener := new FubonFillReportListener();
    waiter := listener.RegisterWaiter();
    Hear(listener, waiter, before);
    listener.SetKeys(waiter, keys);
    Hear(listener, waiter, after);
  }

  function FillRows(stream: seq<Callback>): seq<Row> {
    if stream == [] then []
    else FillRows(stream[..|stream| - 1])
         + (if stream[|stream| - 1].Fill? then [stream[|stream| - 1].row] else [])
  }

  function ReportRows(stream: seq<Callback>): seq<Row> {
    if stream == [] then []
    else ReportRows(stream[..|stream| - 1])
         + (if stream[|stream| - 1].Report? then [stream[|stream| - 1].row] else [])
  }

  lemma NoKeysNoMatch(row: Row)
    ensures !Matches({}, row)
  {
  }

  lemma LatestGrows(rows: seq<Row>, row: Row, n: nat)
    requires n > 0
    ensures Latest(Latest(rows, n) + [row], n) == Latest(rows + [row], n)
  {
  }

  /** Before its keys are known an order takes nothing: the buffers hold the last rows of each kind. */
  lemma {:induction false} KeylessBuffers(stream: seq<Callback>)
    ensures DeliverAll(START, stream)
            == Session(NEW_WAITER, Latest(FillRows(stream), BUFFER_SIZE), Latest(ReportRows(stream), BUFFER_SIZE))
  {
    if stream != [] {
      var front, last := stream[..|stream| - 1], stream[|stream| - 1];
      KeylessBuffers(front);
      NoKeysNoMatch(last.row);
      LatestGrows(FillRows(front), last.row, BUFFER_SIZE);
      LatestGrows(ReportRows(front), last.row, BUFFER_SIZE);
    }
  }

  /** What an order ends up knowing from a list of fills and a list of reports. */
  function Knows(keys: set<string>, fills: seq<Row>, reports: seq<Row>): WaiterState {
    OnReports(OnFills(NEW_WAITER.(keys := keys), fills), reports)
  }

  lemma {:induction false} KeysStay(w: WaiterState, rows: seq<Row>)
    ensures OnFills(w, rows).keys == w.keys && OnReports(w, rows).keys == w.keys
  {
    if rows != [] {
      KeysStay(w, rows[..|rows| - 1]);
    }
  }

  /** Reports touch nothing a fill touches, so a fill may be taken before or after any reports. */
  lemma {:induction false} FillPastReports(w: WaiterState, reports: seq<Row>, row: Row)
    ensures OnFill(OnReports(w, reports), row) == OnReports(OnFill(w, row), reports)
  {
    if reports != [] {
      FillPastReports(w, reports[..|reports| - 1], row);
      KeysStay(w, reports[..|reports| - 1]);
    }
  }

  lemma {:induction false} KeyedDelivery(s: Session, keys: set<string>, fills: seq<Row>, reports: seq<Row>,
                                         stream: seq<Callback>)
    requires s.waiter == Knows(keys, fills, reports)
    ensures DeliverAll(s, stream).waiter == Knows(keys, fills + FillRows(stream), reports + ReportRows(stream))
  {
    if stream == [] {
      assert fills + [] == fills && reports + [] == reports;
    } else {
      var front, last := stream[..|stream| - 1], stream[|stream| - 1];
      KeyedDelivery(s, keys, fills, reports, front);
      var f, r := fills + FillRows(front), reports + ReportRows(front);
      var known := OnFills(NEW_WAITER.(keys := keys), f);
      KeysStay(NEW_WAITER.(keys := keys), f);
      KeysStay(known, r);
      if last.Fill? {
        FillPastReports(known, r, last.row);
        assert fills + FillRows(stream) == f + [last.row] && reports + ReportRows(stream) == r;
        assert (f + [last.row])[..|f|] == f;
      } else {
        assert reports + ReportRows(stream) == r + [last.row] && fills + FillRows(stream) == f;
        assert (r + [last.row])[..|r|] == r;
      }
    }
  }

  /**
   Wherever in the stream the order learns its keys, it ends up knowing exactly the last 64 fills and the last 64
   reports from before that moment, followed by everything after it.
   */
  lemma LateKeysCostOnlyOldRows(before: seq<Callback>, keys: set<string>, after: seq<Callback>)
    ensures Run(before, keys, after).waiter
            == Knows(keys, Latest(FillRows(before), BUFFER_SIZE) + FillRows(after),
                     Latest(ReportRows(before), BUFFER_SIZE) + ReportRows(after))
  {
    KeylessBuffers(before);
    var s := Learn(DeliverAll(START, before), keys);
    assert {} + keys == keys;
    KeyedDelivery(s, keys, Latest(FillRows(before), BUFFER_SIZE), Latest(ReportRows(before), BUFFER_SIZE), after);
  }

  lemma {:induction false} RowsConcat(a: seq<Callback>, b: seq<Callback>)
    ensures FillRows(a + b) == FillRows(a) + FillRows(b) && ReportRows(a + b) == ReportRows(a) + ReportRows(b)
  {
    if b == [] {
      assert a + b == a;
    } else {
      var n := |b| - 1;
      assert (a + b)[..|a| + n] == a + b[..n] && (a + b)[|a| + n] == b[n];
      RowsConcat(a, b[..n]);
    }
  }

  /** As long as at most 64 rows of each kind come first, the moment the keys arrive makes no difference at all. */
  lemma InterleavingIndependence(stream: seq<Callback>, keys: set<string>, i: nat)
    requires i <= |stream| && |FillRows(stream[..i])| <= BUFFER_SIZE && |ReportRows(stream[..i])| <= BUFFER_SIZE
    ensures Run(stream[..i], keys, stream[i..]).waiter == Knows(keys, FillRows(stream), ReportRows(stream))
  {
    LateKeysCostOnlyOldRows(stream[..i], keys, stream[i..]);
    assert stream[..i] + stream[i..] == stream;
    RowsConcat(stream[..i], stream[i..]);
  }

  // ---------------------------------------------------------------- what an order ends up knowing

  /** The serials a set of keys matches, among some rows. */
  predicate Delivered(keys: set<string>, rows: seq<Row>, key: DedupeKey) {
    exists i :: 0 <= i < |rows| && Matches(keys, rows[i]) && KeyOf(rows[i]) == key
  }

  /** Each matching fill once: the first of every dedupe key. */
  function DistinctLots(keys: set<string>, rows: seq<Row>): real {
    if rows == [] then 0.0
    else
      var front, last := rows[..|rows| - 1], rows[|rows| - 1];
      DistinctLots(keys, front) + (if Matches(keys, last) && !Delivered(keys, front, KeyOf(last)) then last.lots
                                   else 0.0)
  }

  /** Those fills themselves. */
  function DistinctFills(keys: set<string>, rows: seq<Row>): seq<Row> {
    if rows == [] then []
    else
      var front, last := rows[..|rows| - 1], rows[|rows| - 1];
      DistinctFills(keys, front) + (if Matches(keys, last) && !Delivered(keys, front, KeyOf(last)) then [last] else [])
  }

  function LastStatus(keys: set<string>, reports: seq<Row>): Option<string> {
    if reports == [] then None
    else
      var last := reports[|reports| - 1];
      if Matches(keys, last) && last.status != "" then Some(last.status) else LastStatus(keys, reports[..|reports| - 1])
  }

  lemma {:induction false} SeenIsDelivered(keys: set<string>, rows: seq<Row>)
    ensures var w := OnFills(NEW_WAITER.(keys := keys), rows);
            && w.keys == keys
            && (forall k :: k in w.seen <==> Delivered(keys, rows, k))
            && w.filledLots == DistinctLots(keys, rows) && w.fillEvents == DistinctFills(keys, rows)
            && w.orderReports == [] && w.terminalStatus == None
  {
    if rows != [] {
      var front, last := rows[..|rows| - 1], rows[|rows| - 1];
      SeenIsDelivered(keys, front);
      DeliveredSplit(keys, front, last);
      assert rows == front + [last];
    }
  }

  lemma DeliveredSplit(keys: set<string>, front: seq<Row>, last: Row)
    ensures forall k ::
              Delivered(keys, front + [last], k)
              <==> Delivered(keys, front, k) || (Matches(keys, last) && KeyOf(last) == k)
  {
    var all := front + [last];
    forall k
      ensures Delivered(keys, all, k) <==> Delivered(keys, front, k) || (Matches(keys, last) && KeyOf(last) == k)
    {
      if Delivered(keys, front, k) {
        var i :| 0 <= i < |front| && Matches(keys, front[i]) && KeyOf(front[i]) == k;
        assert all[i] == front[i];
      }
      if Matches(keys, last) && KeyOf(last) == k {
        assert all[|front|] == last;
      }
    }
  }

  lemma {:induction false} ReportsLeaveFills(w: WaiterState, reports: seq<Row>)
    requires w.terminalStatus == None
    ensures var after := OnReports(w, reports);
            after.filledLots == w.filledLots && after.keys == w.keys && after.fillEvents == w.fillEvents
              && after.terminalStatus == LastStatus(w.keys, reports)
  {
    if reports != [] {
      ReportsLeaveFills(w, reports[..|reports| - 1]);
    }
  }

  /**
   Fills kept and lots filled are those of the distinct matching fills; the terminal status is the last one any matching
   report named.
   */
  lemma KnownFacts(keys: set<string>, fills: seq<Row>, reports: seq<Row>)
    ensures Knows(keys, fills, reports).filledLots == DistinctLots(keys, fills)
    ensures Knows(keys, fills, reports).fillEvents == DistinctFills(keys, fills)
    ensures Knows(keys, fills, reports).terminalStatus == LastStatus(keys, reports)
  {
    SeenIsDelivered(keys, fills);
    ReportsLeaveFills(OnFills(NEW_WAITER.(keys := keys), fills), reports);
  }

  /** A fill delivered again anywhere later changes nothing. */
  lemma RedeliveryIsHarmless(keys: set<string>, fills: seq<Row>, row: Row)
    requires exists i :: 0 <= i < |fills| && KeyOf(fills[i]) == KeyOf(row) && Matches(keys, fills[i])
    ensures OnFills(NEW_WAITER.(keys := keys), fills + [row]) == OnFills(NEW_WAITER.(keys := keys), fills)
  {
    SeenIsDelivered(keys, fills);
    assert (fills + [row])[..|fills|] == fills;
    assert Delivered(keys, fills, KeyOf(row));
  }

  // ---------------------------------------------------------------- average price

  predicate Counts(row: Row) {
    row.lots > 0.0 && row.price.Some?
  }

  function PricedLots(rows: seq<Row>): real {
    if rows == [] then 0.0
    else PricedLots(rows[..|rows| - 1]) + (if Counts(rows[|rows| - 1]) then rows[|rows| - 1].lots else 0.0)
  }

  function Money(rows: seq<Row>): real {
    if rows == [] then 0.0
    else Money(rows[..|rows| - 1])
         + (if Counts(rows[|rows| - 1]) then Mul(rows[|rows| - 1].price.value, rows[|rows| - 1].lots) else 0.0)
  }

  function AveragePrice(rows: seq<Row>): Option<real> {
    if PricedLots(rows) <= 0.0 then None else Some(Money(rows) / PricedLots(rows))
  }

  lemma {:induction false} MoneyWithin(rows: seq<Row>, low: real, high: real)
    requires forall r :: r in rows && Counts(r) ==> low <= r.price.value <= high
    ensures Mul(low, PricedLots(rows)) <= Money(rows) <= Mul(high, PricedLots(rows))
    ensures PricedLots(rows) > 0.0 <==> exists r :: r in rows && Counts(r)
    ensures PricedLots(rows) >= 0.0
  {
    if rows == [] {
      assert Mul(low, 0.0) == 0.0 && Mul(high, 0.0) == 0.0;
    } else {
      hide Mul;
      var front, last := rows[..|rows| - 1], rows[|rows| - 1];
      MoneyWithin(front, low, high);
      assert rows == front + [last];
      if Counts(last) {
        MulAdds(low, PricedLots(front), last.lots);
        MulAdds(high, PricedLots(front), last.lots);
        MulMonotone(low, last.price.value, last.lots);
        MulMonotone(last.price.value, high, last.lots);
      }
    }
  }

  /** There is an average exactly when some fill carries lots and a price, and it lies among those prices. */
  lemma AverageAmongPrices(rows: seq<Row>, low: real, high: real)
    requires forall r :: r in rows && Counts(r) ==> low <= r.price.value <= high
    ensures AveragePrice(rows).Some? <==> exists r :: r in rows && Counts(r)
    ensures AveragePrice(rows).Some? ==> low <= AveragePrice(rows).value <= high
  {
    MoneyWithin(rows, low, high);
    if PricedLots(rows) > 0.0 {
      hide Mul;
      MulOfRatio(Money(rows), PricedLots(rows));
      MulCancels(low, Money(rows) / PricedLots(rows), PricedLots(rows));
      MulCancels(Money(rows) / PricedLots(rows), high, PricedLots(rows));
    }
  }
}
