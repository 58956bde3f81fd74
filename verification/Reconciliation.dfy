/** Comparing what the strategy expects with what the brokers report and what the ledger recorded. */
module Reconciliation {
  import opened Models
  import opened StrategyModel
  import opened Store

  datatype BrokerPosition = BrokerPosition(symbol: string, quantity: real)

  datatype OpenOrder = OpenOrder(symbol: string, quantity: real)

  datatype Snapshot = Snapshot(broker: BrokerName, positions: seq<BrokerPosition>, openOrders: seq<OpenOrder>)

  datatype Fetch = Fetched(snapshot: Snapshot) | FetchFailed(broker: BrokerName)

  datatype Status = Matched | Warning | ErrorStatus

  datatype IssueKind =
    | BrokerFetchFailed | UnexpectedPosition | PositionQuantityMismatch | UnexpectedOpenOrder | RecordedFillMismatch

  datatype Issue = Issue(status: Status, kind: IssueKind, broker: BrokerName, symbol: string, actual: real)

  datatype Expected = Expected(umcSymbol: string, ccfSymbol: string, umcUnits: real, ccfContracts: int) {
    function Symbol(broker: BrokerName): string {
      if broker == IbkrUmc then umcSymbol else ccfSymbol
    }

    function Quantity(broker: BrokerName): real {
      if broker == IbkrUmc then umcUnits else ccfContracts as real
    }
  }

  datatype Tolerances = Tolerances(umcUnits: real, ccfContracts: int) {
    function Of(broker: BrokerName): real {
      if broker == IbkrUmc then umcUnits else ccfContracts as real
    }
  }

  function TradingSymbol(st: RuntimeState, fallback: string): string {
    if st.contract.tradingSymbol.Some? && st.contract.tradingSymbol.value != "" then st.contract.tradingSymbol.value
    else fallback
  }

  /**
   A paused strategy still expects its position when it holds one beyond tolerance; otherwise it expects to be flat.
   */
  function ExpectedFromStrategy(tol: Tolerances, st: Option<RuntimeState>, umcSymbol: string,
                                ccfSymbol: string): Expected {
    if st.None? then Expected(umcSymbol, ccfSymbol, 0.0, 0)
    else
      var s := st.value;
      var holds := s.direction.Some?
                   && (Abs(s.position.umcUnits) > tol.umcUnits
                       || AbsInt(s.position.ccfContracts) as real > tol.ccfContracts as real);
      if s.state == Open || s.state == ExitPending || holds
      then Expected(umcSymbol, TradingSymbol(s, ccfSymbol), s.position.umcUnits, s.position.ccfContracts)
      else Expected(umcSymbol, ccfSymbol, 0.0, 0)
  }

  function HeldOn(positions: seq<BrokerPosition>, symbol: string): real {
    if positions == [] then 0.0
    else HeldOn(positions[..|positions| - 1], symbol)
         + (if positions[|positions| - 1].symbol == symbol then positions[|positions| - 1].quantity else 0.0)
  }

  /** Positions under any other symbol that are too large to ignore, in the order reported. */
  function StrayIssues(broker: BrokerName, positions: seq<BrokerPosition>, symbol: string,
                       tolerance: real): seq<Issue> {
    if positions == [] then []
    else
      var last := positions[|positions| - 1];
      StrayIssues(broker, positions[..|positions| - 1], symbol, tolerance)
      + (if last.symbol != symbol && Abs(last.quantity) > tolerance
         then [Issue(Warning, UnexpectedPosition, broker, last.symbol, last.quantity)] else [])
  }

  function OrderIssues(broker: BrokerName, orders: seq<OpenOrder>): seq<Issue> {
    seq(|orders|, i requires 0 <= i < |orders| =>
          Issue(Warning, UnexpectedOpenOrder, broker, orders[i].symbol, orders[i].quantity))
  }

  function SnapshotIssues(tol: Tolerances, snapshot: Snapshot, expected: Expected): seq<Issue> {
    var b := snapshot.broker;
    var held := HeldOn(snapshot.positions, expected.Symbol(b));
    (if Abs(held - expected.Quantity(b)) > tol.Of(b)
     then [Issue(Warning, if Abs(expected.Quantity(b)) <= tol.Of(b) then UnexpectedPosition
                 else PositionQuantityMismatch, b, expected.Symbol(b), held)]
     else [])
    + StrayIssues(b, snapshot.positions, expected.Symbol(b), tol.Of(b))
    + OrderIssues(b, snapshot.openOrders)
  }

  function FetchIssues(tol: Tolerances, fetch: Fetch, expected: Expected): seq<Issue> {
    match fetch
    case Fetched(snapshot) => SnapshotIssues(tol, snapshot, expected)
    case FetchFailed(broker) => [Issue(ErrorStatus, BrokerFetchFailed, broker, "", 0.0)]
  }

  function AllIssues(tol: Tolerances, fetches: seq<Fetch>, expected: Expected): seq<Issue> {
    if fetches == [] then []
    else AllIssues(tol, fetches[..|fetches| - 1], expected) + FetchIssues(tol, fetches[|fetches| - 1], expected)
  }

  function LedgerIssue(tol: Tolerances, expected: Expected, broker: BrokerName, recorded: real): seq<Issue> {
    if Abs(recorded - expected.Quantity(broker)) <= tol.Of(broker) then []
    else [Issue(Warning, RecordedFillMismatch, broker, expected.Symbol(broker), recorded)]
  }

  function LedgerIssues(tol: Tolerances, t: Tables, expected: Expected): seq<Issue> {
    LedgerIssue(tol, expected, IbkrUmc, RecordedExposure(t.fills, t.adjustments, IbkrUmc, expected.umcSymbol))
    + LedgerIssue(tol, expected, FubonCcf, RecordedExposure(t.fills, t.adjustments, FubonCcf, expected.ccfSymbol))
  }

  function ReportStatus(issues: seq<Issue>): Status {
    if exists i :: i in issues && i.status == ErrorStatus then ErrorStatus
    else if issues != [] then Warning
    else Matched
  }

  datatype ReconciliationReport = ReconciliationReport(status: Status, expected: Expected, issues: seq<Issue>)

  class BrokerReconciler {
    const tol: Tolerances

    constructor (tol: Tolerances)
      ensures this.tol == tol
    {
      this.tol := tol;
    }

    method CheckSnapshot(snapshot: Snapshot, expected: Expected) returns (issues: seq<Issue>)
      ensures issues == SnapshotIssues(tol, snapshot, expected)
    {
      var broker := snapshot.broker;
      var symbol, quantity, tolerance := expected.Symbol(broker), expected.Quantity(broker), tol.Of(broker);
      var held := 0.0;
      for i := 0 to |snapshot.positions|
        invariant held == HeldOn(snapshot.positions[..i], symbol)
      {
        assert snapshot.positions[..i + 1][..i] == snapshot.positions[..i];
        if snapshot.positions[i].symbol == symbol {
          held := held + snapshot.positions[i].quantity;
        }
      }
      assert snapshot.positions[..|snapshot.positions|] == snapshot.positions;
      issues := [];
      if Abs(held - quantity) > tolerance {
        var kind := if Abs(quantity) <= tolerance then UnexpectedPosition else PositionQuantityMismatch;
        issues := [Issue(Warning, kind, broker, symbol, held)];
      }
      ghost var own := issues;
      for i := 0 to |snapshot.positions|
        invariant issues == own + StrayIssues(broker, snapshot.positions[..i], symbol, tolerance)
      {
        assert snapshot.positions[..i + 1][..i] == snapshot.positions[..i];
        var p := snapshot.positions[i];
        if p.symbol != symbol && Abs(p.quantity) > tolerance {
          issues := issues + [Issue(Warning, UnexpectedPosition, broker, p.symbol, p.quantity)];
        }
      }
      ghost var positional := issues;
      for i := 0 to |snapshot.openOrders|
        invariant issues == positional + OrderIssues(broker, snapshot.openOrders[..i])
      {
        var order := snapshot.openOrders[i];
        issues := issues + [Issue(Warning, UnexpectedOpenOrder, broker, order.symbol, order.quantity)];
      }
      assert snapshot.openOrders[..|snapshot.openOrders|] == snapshot.openOrders;
    }

    method Reconcile(state: Option<RuntimeState>, fetches: seq<Fetch>, umcSymbol: string, ccfSymbol: string)
      returns (report: ReconciliationReport)
      ensures report.expected == ExpectedFromStrategy(tol, state, umcSymbol, ccfSymbol)
      ensures report.issues == AllIssues(tol, fetches, report.expected)
      ensures report.status == ReportStatus(report.issues)
    {
      var expected := ExpectedFromStrategy(tol, state, umcSymbol, ccfSymbol);
      var issues: seq<Issue> := [];
      for i := 0 to |fetches|
        invariant issues == AllIssues(tol, fetches[..i], expected)
      {
        assert fetches[..i + 1][..i] == fetches[..i];
        match fetches[i] {
          case FetchFailed(broker) => issues := issues + [Issue(ErrorStatus, BrokerFetchFailed, broker, "", 0.0)];
          case Fetched(snapshot) =>
            var found := CheckSnapshot(snapshot, expected);
            issues := issues + found;
        }
      }
      assert fetches[..|fetches|] == fetches;
      report := ReconciliationReport(ReportStatus(issues), expected, issues);
    }
  }

  class PostTradeReconciler {
    const tol: Tolerances

    constructor (tol: Tolerances)
      ensures this.tol == tol
    {
      this.tol := tol;
    }

    /** The broker comparison, plus the recorded ledger against the same expectation. */
    method Reconcile(store: SQLiteStore, state: Option<RuntimeState>, fetches: seq<Fetch>, umcSymbol: string,
                     ccfSymbol: string)
      returns (report: ReconciliationReport)
      ensures report.expected == ExpectedFromStrategy(tol, state, umcSymbol, ccfSymbol)
      ensures report.issues == AllIssues(tol, fetches, report.expected)
              + LedgerIssues(tol, store.Contents(), report.expected)
      ensures report.status == ReportStatus(report.issues)
    {
      var inner := new BrokerReconciler(tol);
      var brokerReport := inner.Reconcile(state, fetches, umcSymbol, ccfSymbol);
      var expected := brokerReport.expected;
      var umc, ccf := store.LoadRecordedFillExposure(expected.umcSymbol, expected.ccfSymbol);
      var issues := brokerReport.issues
        + (LedgerIssue(tol, expected, IbkrUmc, umc) + LedgerIssue(tol, expected, FubonCcf, ccf));
      report := ReconciliationReport(ReportStatus(issues), expected, issues);
    }
  }

  // ---------------------------------------------------------------- what MATCHED means

  /** The venue holds what is expected on its instrument, nothing sizeable elsewhere, and nothing is working. */
  predicate Clean(tol: Tolerances, fetch: Fetch, expected: Expected) {
    && fetch.Fetched?
    && var b := fetch.snapshot.broker;
       && Abs(HeldOn(fetch.snapshot.positions, expected.Symbol(b)) - expected.Quantity(b)) <= tol.Of(b)
       && (forall p :: p in fetch.snapshot.positions && p.symbol != expected.Symbol(b) ==> Abs(p.quantity) <= tol.Of(b))
       && fetch.snapshot.openOrders == []
  }

  lemma {:induction false} NoStrays(broker: BrokerName, positions: seq<BrokerPosition>, symbol: string, tolerance: real)
    ensures StrayIssues(broker, positions, symbol, tolerance) == []
            <==> forall p :: p in positions && p.symbol != symbol ==> Abs(p.quantity) <= tolerance
    ensures forall i :: i in StrayIssues(broker, positions, symbol, tolerance) ==> i.status == Warning
  {
    if positions != [] {
      var front, last := positions[..|positions| - 1], positions[|positions| - 1];
      NoStrays(broker, front, symbol, tolerance);
      assert positions == front + [last];
    }
  }

  lemma FetchVerdict(tol: Tolerances, fetch: Fetch, expected: Expected)
    ensures FetchIssues(tol, fetch, expected) == [] <==> Clean(tol, fetch, expected)
    ensures (exists i :: i in FetchIssues(tol, fetch, expected) && i.status == ErrorStatus) <==> fetch.FetchFailed?
  {
    match fetch {
      case FetchFailed(broker) => assert FetchIssues(tol, fetch, expected)[0].status == ErrorStatus;
      case Fetched(snapshot) =>
        NoStrays(snapshot.broker, snapshot.positions, expected.Symbol(snapshot.broker), tol.Of(snapshot.broker));
    }
  }

  lemma {:induction false} AllVerdict(tol: Tolerances, fetches: seq<Fetch>, expected: Expected)
    ensures AllIssues(tol, fetches, expected) == [] <==> forall f :: f in fetches ==> Clean(tol, f, expected)
    ensures (exists i :: i in AllIssues(tol, fetches, expected) && i.status == ErrorStatus)
            <==> exists f :: f in fetches && f.FetchFailed?
  {
    hide FetchIssues, Clean;
    if fetches != [] {
      var front, last := fetches[..|fetches| - 1], fetches[|fetches| - 1];
      AllVerdict(tol, front, expected);
      FetchVerdict(tol, last, expected);
      assert fetches == front + [last];
    }
  }

  /** MATCHED exactly when every broker answered and is clean; ERROR exactly when one could not answer. */
  lemma BrokerStatus(tol: Tolerances, fetches: seq<Fetch>, expected: Expected)
    ensures var status := ReportStatus(AllIssues(tol, fetches, expected));
            && (status == Matched <==> forall f :: f in fetches ==> Clean(tol, f, expected))
            && (status == ErrorStatus <==> exists f :: f in fetches && f.FetchFailed?)
  {
    AllVerdict(tol, fetches, expected);
  }

  /** Post-trade, MATCHED also asks the recorded ledger to agree with the expectation on both instruments. */
  lemma PostTradeStatus(tol: Tolerances, fetches: seq<Fetch>, t: Tables, expected: Expected)
    ensures ReportStatus(AllIssues(tol, fetches, expected) + LedgerIssues(tol, t, expected)) == Matched
            <==> && (forall f :: f in fetches ==> Clean(tol, f, expected))
                 && Abs(RecordedExposure(t.fills, t.adjustments, IbkrUmc, expected.umcSymbol) - expected.umcUnits)
                    <= tol.umcUnits
                 && Abs(RecordedExposure(t.fills, t.adjustments, FubonCcf, expected.ccfSymbol)
                        - expected.ccfContracts as real) <= tol.ccfContracts as real
  {
    AllVerdict(tol, fetches, expected);
  }
}
